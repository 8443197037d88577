/**
 The charm's validated state record and the relation payload it publishes. The
 payload comes in two shapes derived from one state: the current shape refers to the
 password through a secret identifier, the legacy shape carries the password itself.
 */
module Payload {
  import opened Wrappers

  /**
   A configuration that passed validation. Port range and the allowed
   authentication and transport values are checked before a record is built, so
   here `port` is any integer and the two enumerations are their string values.
   */
  datatype CharmState = CharmState(
    host: string,
    port: int,
    user: Option<string>,
    password: Option<string>,
    passwordId: Option<string>,
    authType: string,
    transportSecurity: string,
    domain: Option<string>)

  /** One relation databag as the provider writes it. */
  datatype SmtpRelationData = SmtpRelationData(
    host: string,
    port: int,
    user: Option<string>,
    password: Option<string>,
    passwordId: Option<string>,
    authType: string,
    transportSecurity: string,
    domain: Option<string>)

  /** The six connection fields a payload copies from the state unchanged. */
  predicate SameConnection(s: CharmState, p: SmtpRelationData) {
    && p.host == s.host
    && p.port == s.port
    && p.user == s.user
    && p.authType == s.authType
    && p.transportSecurity == s.transportSecurity
    && p.domain == s.domain
  }

  /** The current payload: connection fields plus the secret reference, never the password. */
  function SmtpData(s: CharmState): (p: SmtpRelationData)
    ensures SameConnection(s, p)
    ensures p.passwordId == s.passwordId
    ensures p.password.None?
  {
    SmtpRelationData(s.host, s.port, s.user, None, s.passwordId, s.authType, s.transportSecurity, s.domain)
  }

  /** The legacy payload: connection fields plus the plaintext password, never a secret reference. */
  function LegacySmtpData(s: CharmState): (p: SmtpRelationData)
    ensures SameConnection(s, p)
    ensures p.password == s.password
    ensures p.passwordId.None?
  {
    SmtpRelationData(s.host, s.port, s.user, s.password, None, s.authType, s.transportSecurity, s.domain)
  }

  /**
   Rebuilds a state from the two payloads published for it: the connection fields
   and the reference from the current payload, the password from the legacy one.
   */
  function Recombine(current: SmtpRelationData, legacy: SmtpRelationData): CharmState {
    CharmState(current.host, current.port, current.user, legacy.password, current.passwordId,
               current.authType, current.transportSecurity, current.domain)
  }

  /** Publishing loses nothing: the two payloads together determine the state. */
  lemma RecombineRoundTrip(s: CharmState)
    ensures Recombine(SmtpData(s), LegacySmtpData(s)) == s
  {
  }

  /** The two shapes agree on every field but the password fields. */
  lemma ShapesDifferOnlyInPassword(s: CharmState)
    ensures LegacySmtpData(s) == SmtpData(s).(password := s.password, passwordId := None)
    ensures SmtpData(s) == LegacySmtpData(s) <==> s.password.None? && s.passwordId.None?
  {
  }
}
