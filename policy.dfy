/**
 * The authorization rules the handlers apply to the `user_email` and `tipo`
 * headers. Every comparison is exact and case-sensitive. On routes the token gate
 * does not cover, these headers are whatever the client sent.
 */
module Policy {
  import opened Php

  /** The administrator role as most handlers spell it. */
  const Administrador := "Administrador"
  /** The spelling `RemoveAction` compares with. */
  const AdministradorLowercase := "administrador"
  /** The role a new registration receives. */
  const Usuario := "usuario"

  /** The outcome of a guard on a route that names an account. */
  datatype Verdict = BadRoute | Denied | Allowed

  /**
   * "The named account itself, or the given administrator role": a falsy route
   * e-mail is a bad route; otherwise a caller acting on another account needs the role.
   */
  function SelfOrRole(routeEmail: string, headerEmail: string, headerTipo: string, adminRole: string): (v: Verdict)
    ensures v == BadRoute <==> FalsyText(routeEmail)
    ensures v == Allowed <==> !FalsyText(routeEmail) && (headerEmail == routeEmail || headerTipo == adminRole)
    ensures v == Denied <==> !FalsyText(routeEmail) && headerEmail != routeEmail && headerTipo != adminRole
  {
    if FalsyText(routeEmail) then BadRoute
    else if headerEmail != routeEmail then
      if headerTipo != adminRole then Denied else Allowed
    else Allowed
  }

  /** "The named account itself, nobody else": a falsy route e-mail is a bad route. */
  function SelfOnly(routeEmail: string, headerEmail: string): (v: Verdict)
    ensures v == BadRoute <==> FalsyText(routeEmail)
    ensures v == Allowed <==> !FalsyText(routeEmail) && headerEmail == routeEmail
  {
    if FalsyText(routeEmail) then BadRoute
    else if headerEmail != routeEmail then Denied
    else Allowed
  }

  /** Self-only never lets more through than self-or-administrator, whatever the role. */
  lemma SelfOnlyIsStricter(routeEmail: string, headerEmail: string, headerTipo: string, adminRole: string)
    ensures SelfOnly(routeEmail, headerEmail) == Allowed ==> SelfOrRole(routeEmail, headerEmail, headerTipo, adminRole) == Allowed
  {
  }

  /**
   * The two spellings differ: a caller with role "Administrador" acting on another
   * account is refused by the lowercase guard and admitted by the capitalised one.
   */
  lemma SpellingsDisagree(routeEmail: string, headerEmail: string)
    requires !FalsyText(routeEmail) && headerEmail != routeEmail
    ensures SelfOrRole(routeEmail, headerEmail, Administrador, AdministradorLowercase) == Denied
    ensures SelfOrRole(routeEmail, headerEmail, Administrador, Administrador) == Allowed
  {
  }

}
