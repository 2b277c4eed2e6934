/**
 * The `origin` callback of the CORS configuration.  The list of allowed
 * origins lives in a file that is not part of this model, so it is a
 * parameter.
 */
module CorsOptions {
  import opened Wrappers

  const RejectionMessage: string := "Not allowed by CORS"

  /** What the callback is called with: an error (null when allowed) and the decision. */
  datatype Decision = Decision(err: Option<string>, allowed: bool)

  /** `allowedOrigins.includes(origin ?? '') || !origin`. */
  predicate IsAllowed(origin: Option<string>, allowedOrigins: seq<string>) {
    origin.GetOr("") in allowedOrigins || origin == None || origin == Some("")
  }

  function Decide(origin: Option<string>, allowedOrigins: seq<string>): (d: Decision)
    ensures d.allowed <==> origin == None || origin == Some("") || origin.value in allowedOrigins
    ensures d.err == None <==> d.allowed
    ensures !d.allowed ==> d.err == Some(RejectionMessage)
  {
    var isAllowed := IsAllowed(origin, allowedOrigins);
    Decision(if isAllowed then None else Some(RejectionMessage), isAllowed)
  }

  /** Requests with no origin (same-origin or non-browser clients) pass whatever the list holds. */
  lemma {:induction false} MissingOriginAlwaysAllowed(allowedOrigins: seq<string>)
    ensures Decide(None, allowedOrigins) == Decision(None, true)
    ensures Decide(Some(""), allowedOrigins) == Decision(None, true)
  {
  }

  /** Against an empty list only requests without an origin pass. */
  lemma {:induction false} EmptyListAllowsOnlyMissingOrigin(origin: Option<string>)
    ensures Decide(origin, []).allowed <==> origin == None || origin == Some("")
  {
  }
}
