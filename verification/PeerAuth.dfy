/**
 Signed capabilities between bridges. Digests and signatures are injective: a digest is
 its text, a signature the secret with the signed claims. The encoded form of claims is
 known by its length only.
 */
module PeerAuth {
  import opened Common
  import opened Text

  const TTL_SECONDS := 30
  const MIN_SECRET_LENGTH := 32
  const MAX_ENCODED_LENGTH := 8192

  // A member of a JSON object, as far as the checks tell values apart.
  datatype Field = Missing | Str(value: string) | True | OtherValue(tag: nat)

  // The `rulesPackDispatch` of a task: absent or falsy, or with this issuer.
  datatype Dispatch = NoDispatch | Dispatch(issuer: Field)

  datatype Task = Task(
    botName: Field, chatId: Field, requestId: Field, sourceBot: Field, isAsync: Field,
    callbackBotName: Field, callbackChatId: Field, dispatch: Dispatch, rest: nat)

  // `NullBody` is the body "null": JSON that has no members.
  datatype RawBody = Encoded(task: Task) | NullBody | Garbage(text: string)

  datatype Claims = Claims(
    iss: string, aud: string, kid: string, host: string, verb: string, path: string,
    sourceBot: string, rulesPackIssuer: Option<string>, targetBot: Option<string>,
    chatId: Option<string>, taskId: Option<string>, body: RawBody, iat: int, exp: int, nonce: string)

  datatype Signature = Mac(secret: string, claims: Claims) | Noise(bytes: nat)

  datatype Authorization = Absent | Several | Unreadable | Capability(claims: Claims, signature: Signature)

  datatype Code =
    | PeerAuthMissing | Malformed | UnknownIssuer | UnknownKey | Revoked | BadSignature
    | Expired | NotYetValid | Audience | Host | Route | Body | Replay | SourceScope | TargetScope

  // `Thrown` is an exception the check lets through.
  datatype Checked = Passed(claims: Claims) | Failed(code: Code, status: int) | Thrown

  function Fail(code: Code): Checked {
    Failed(code, 401)
  }

  function Deny(code: Code): Checked {
    Failed(code, 403)
  }

  predicate IsClaims(c: Claims) {
    && c.iss != "" && c.aud != "" && c.kid != "" && c.host != "" && c.verb != ""
    && |c.path| > 0 && c.path[0] == '/'
    && c.sourceBot != "" && |c.nonce| >= 16
    && c.rulesPackIssuer != Some("")
  }

  function CreateAuthorization(c: Claims, secret: string): Option<Authorization> {
    if |secret| < MIN_SECRET_LENGTH then None else Some(Capability(c, Mac(secret, c)))
  }

  // The failure of a header that does not parse.
  function ParseFailure(a: Authorization, encodedLength: Claims -> nat): Option<Checked> {
    match a
    case Several => Some(Fail(Malformed))
    case Absent => Some(Fail(PeerAuthMissing))
    case Unreadable => Some(Fail(Malformed))
    case Capability(c, _) =>
      if encodedLength(c) > MAX_ENCODED_LENGTH || !IsClaims(c) then Some(Fail(Malformed)) else None
  }

  predicate SignatureOk(a: Authorization, secret: string)
    requires a.Capability?
  {
    |secret| >= MIN_SECRET_LENGTH && a.signature == Mac(secret, a.claims)
  }
}
