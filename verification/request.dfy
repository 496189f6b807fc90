/**
 * The request tracker (`api/Request`) as its callers see it: whether the
 * request was sent, whether it is loading, and how it settled. The tracker's
 * own source is not part of this model; only the states its callers rely on
 * are modelled, and nothing more is assumed about it.
 */
module RequestTracker {

  datatype Status = NotSent | Loading | Succeeded | Failed(error: string)

  datatype Request = Request(status: Status)

  /** A fresh tracker, as `useRequest()` returns it. */
  const Fresh: Request := Request(NotSent)

  predicate IsSent(r: Request) {
    !r.status.NotSent?
  }

  predicate IsLoading(r: Request) {
    r.status.Loading?
  }

  function OnStart(r: Request): (r': Request)
    ensures IsSent(r') && IsLoading(r')
  {
    Request(Loading)
  }

  function OnSuccess(r: Request): (r': Request)
    ensures IsSent(r') && !IsLoading(r')
  {
    Request(Succeeded)
  }

  function OnFailure(r: Request, error: string): (r': Request)
    ensures IsSent(r') && !IsLoading(r') && r'.status == Failed(error)
  {
    Request(Failed(error))
  }

  /** Once sent, a tracker stays sent through every transition. */
  lemma SentIsStable(r: Request, error: string)
    requires IsSent(r)
    ensures IsSent(OnStart(r)) && IsSent(OnSuccess(r)) && IsSent(OnFailure(r, error))
  {
  }
}
