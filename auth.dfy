/** The admin-key guard in front of the administrative routes. */
module Auth {
  import opened Wrappers
  import opened Json

  /** What the middleware does with a request: answer it with an error, or
      hand it on with `next()`. */
  datatype Outcome = Forbidden(status: int, message: string) | Next

  const ForbiddenMessage := "Admin access required. Provide admin-key header or adminKey query parameter."

  /** `req.headers['admin-key'] || req.query.adminKey`. */
  function SuppliedKey(header: Option<string>, query: Option<string>): (k: Option<string>)
    ensures TruthyText(header) ==> k == header
    ensures !TruthyText(header) ==> k == query
  {
    if TruthyText(header) then header else query
  }

  /** `adminAuth`, with `process.env.ADMIN_KEY` as `configured`. */
  function AdminAuth(header: Option<string>, query: Option<string>, configured: Option<string>): (r: Outcome)
    ensures r.Forbidden? ==> r.status == 403 && r.message == ForbiddenMessage
    ensures r.Next? <==> TruthyText(SuppliedKey(header, query)) && SuppliedKey(header, query) == configured
  {
    var key := SuppliedKey(header, query);
    if !TruthyText(key) || key != configured then Forbidden(403, ForbiddenMessage) else Next
  }

  /** A request passes exactly when the key it supplies (header first) is
      the configured one, and that key is not empty. */
  lemma PassesIffKeyMatches(header: Option<string>, query: Option<string>, configured: Option<string>)
    ensures AdminAuth(header, query, configured).Next? <==>
      TruthyText(configured) && (if TruthyText(header) then header == configured else query == configured)
  {
  }

  /** Without a key the request is refused. */
  lemma NoKeyRefused(header: Option<string>, query: Option<string>, configured: Option<string>)
    requires !TruthyText(header) && !TruthyText(query)
    ensures AdminAuth(header, query, configured) == Forbidden(403, ForbiddenMessage)
  {
  }

  /** Without a configured key (or with an empty one) every request is refused. */
  lemma UnconfiguredRefusesAll(header: Option<string>, query: Option<string>, configured: Option<string>)
    requires !TruthyText(configured)
    ensures AdminAuth(header, query, configured).Forbidden?
  {
  }

  /** A truthy header decides alone: a correct query key does not rescue a
      wrong header key. */
  lemma HeaderTakesPrecedence(header: string, query: Option<string>, configured: Option<string>)
    requires header != "" && Some(header) != configured
    ensures AdminAuth(Some(header), query, configured).Forbidden?
  {
  }
}
