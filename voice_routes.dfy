/** The route table and the response-shape guards of `voice.types.ts`. */
module VoiceRoutes {
  import opened Wrappers

  const PublicRoutes: seq<string> := ["/", "/auth"]
  const ProtectedRoutes: seq<string> := [
    "/dashboard",
    "/dashboard/financial-report",
    "/dashboard/business-analytics",
    "/dashboard/receipt-upload",
    "/dashboard/poster-generator"
  ]

  /** `isAvailableRoute`: membership in the public and protected routes together. */
  predicate IsAvailableRoute(path: string) {
    path in PublicRoutes + ProtectedRoutes
  }

  /** The `data` of a backend response as the guards see it. */
  datatype ResponseData = ResponseData(message: Option<string>, path: Option<string>)

  /** `isTextResponse`: a message and no path. */
  predicate IsTextResponse(d: ResponseData) {
    d.message.Some? && d.path.None?
  }

  /** `isNavigationResponse`: a path, with or without a message. */
  predicate IsNavigationResponse(d: ResponseData) {
    d.path.Some?
  }

  /** The guards never both hold, and they miss exactly the data with neither a message nor a path. */
  lemma GuardsPartition(d: ResponseData)
    ensures !(IsTextResponse(d) && IsNavigationResponse(d))
    ensures !IsTextResponse(d) && !IsNavigationResponse(d) <==> d.message.None? && d.path.None?
  {
  }

  /** The route table lists seven distinct routes, every one starting with `/`. */
  lemma RouteTableShape()
    ensures |PublicRoutes + ProtectedRoutes| == 7
    ensures forall i, j :: 0 <= i < j < 7 ==> (PublicRoutes + ProtectedRoutes)[i] != (PublicRoutes + ProtectedRoutes)[j]
    ensures forall r :: r in PublicRoutes + ProtectedRoutes ==> |r| > 0 && r[0] == '/'
  {
  }
}
