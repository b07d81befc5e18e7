/** What one request reads and writes, the cryptography it relies on, and what it can answer. */
module Worlds {
  import opened Common
  import opened Uuids
  import opened Base64
  import opened PasswordHash
  import opened Keyspace
  import opened Keys
  import opened Tokens
  import opened UserTables

  datatype World = World(redis: Store<Key>, db: Db)

  /** Argon2id, TOTP validation, SHA-256, the password policy and the email spelling are parameters. */
  datatype Crypto =
    Crypto(argon: Argon, pepper: string, totpValid: (string, string) -> bool, sha256: string -> seq<Byte>,
           policyOk: string -> bool, normalizeEmail: string -> string)
  {
    predicate Accepts(password: string, encoded: string) {
      VerifyPassword(argon, password, pepper, encoded).Accepted?
    }

    function Hash(password: string, salt: seq<Byte>): string {
      HashPassword(argon, password, pepper, salt)
    }
  }

  /** Random values a request draws; a handler uses those it needs. */
  datatype Draw = Draw(token: string, session: string, id: Uuid, salt: seq<Byte>)

  datatype Response =
    | BadRequest
    | Unauthorized
    | Locked
    | NotFound
    | WeakPassword
    | ServerError
    | ClaimsUnreadable
    | Accepted200
    | Created201
    | SignedIn(user: Uuid, refreshToken: string)
    | MfaRequired(session: string)
    | Enrolled(secret: string, codes: seq<string>)
    | LoginRedirect
    | ConsentScreen
    | InvalidClient
    | InvalidGrant
    | CodeIssued(code: string)
    | AccessToken(subject: Uuid, audience: string)

  const REFRESH_TOKEN_TTL: Time := 7 * DAY
  const MFA_SESSION_TTL: Time := 5 * MINUTE
  const EMAIL_VERIFY_TTL: Time := 24 * HOUR
  const PASSWORD_RESET_TTL: Time := 1 * HOUR
  const AUTH_CODE_TTL: Time := 60
  const RECOVERY_CODE_COUNT: nat := 8
}
