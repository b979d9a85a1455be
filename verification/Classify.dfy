/** How one non-2xx upstream reply is read: what to call it, how long to skip, and
    whether the skip is for the provider or for the one model asked. */
module Classify {
  import opened Window

  const DEFAULT_COOLDOWN := MINUTE
  const AUTH_COOLDOWN := HOUR
  const REQUEST_ERROR_COOLDOWN := 5 * SECOND

  /** What the error text matched: quota wording, or a complaint about the model. */
  datatype Body = Body(quota: bool, model: bool)

  const SILENT := Body(false, false)

  datatype Class = Class(reason: string, cooldown: int, modelScoped: bool)

  predicate IsAuth(status: int) { status == 401 || status == 403 }

  predicate IsRequestError(status: int) {
    status == 400 || status == 404 || status == 413 || status == 422
  }

  function BlockReason(status: int): string {
    if IsAuth(status) then "auth" else if status == 429 then "limit" else "error"
  }

  function Cooldown(status: int, retryAfter: int): int {
    if IsAuth(status) then AUTH_COOLDOWN
    else if IsRequestError(status) then REQUEST_ERROR_COOLDOWN
    else if retryAfter > 0 then retryAfter
    else DEFAULT_COOLDOWN
  }

  function ClassifyUpstream(status: int, body: Body, retryAfter: int): Class {
    if status == 402 || (status == 403 && body.quota) then
      Class("limit", if retryAfter != 0 then retryAfter else AUTH_COOLDOWN, false)
    else if body.model && (IsAuth(status) || IsRequestError(status)) then
      Class("error", REQUEST_ERROR_COOLDOWN, true)
    else Class(BlockReason(status), Cooldown(status, retryAfter), false)
  }

  /** Every failure is skipped for a strictly positive time, and never for less than a
      reply's own Retry-After unless the key or the request was at fault. */
  lemma EveryFailureCools(status: int, body: Body, retryAfter: int)
    requires retryAfter >= 0
    ensures var c := ClassifyUpstream(status, body, retryAfter);
            && c.cooldown > 0
            && (c.modelScoped ==> c.cooldown == REQUEST_ERROR_COOLDOWN)
            && (!IsAuth(status) && !IsRequestError(status) ==> c.cooldown >= retryAfter)
            && (c.reason == "auth" ==> IsAuth(status) && !c.modelScoped)
  {
  }

  /** `a` is no harsher than `b`: no longer, and no wider. */
  predicate NoHarsher(a: Class, b: Class) {
    a.cooldown <= b.cooldown && (b.modelScoped ==> a.modelScoped)
  }

  /** The body is meant only ever to soften what the status alone would imply. It does,
      except that quota wording on a 403 lets a Retry-After of more than an hour stand. */
  lemma BodySoftensIff(status: int, body: Body, retryAfter: int)
    requires retryAfter >= 0
    ensures NoHarsher(ClassifyUpstream(status, body, retryAfter), ClassifyUpstream(status, SILENT, retryAfter))
            <==> !(status == 403 && body.quota && retryAfter > AUTH_COOLDOWN)
  {
  }

  /** How long each failure is skipped, in nanoseconds: what its Retry-After says when it has
      one and neither key nor request was at fault, else a minute; five seconds for a request
      at fault; an hour for a key or an account at fault, the account's Retry-After going first. */
  lemma CooldownsAre(status: int, body: Body, retryAfter: int)
    requires retryAfter >= 0
    ensures var cooldown := ClassifyUpstream(status, body, retryAfter).cooldown;
            var account := status == 402 || (status == 403 && body.quota);
            var request := status == 400 || status == 404 || status == 413 || status == 422;
            var key := status == 401 || status == 403;
            && (account && retryAfter > 0 ==> cooldown == retryAfter)
            && (account && retryAfter == 0 ==> cooldown == 3_600_000_000_000)
            && (!account && key && !body.model ==> cooldown == 3_600_000_000_000)
            && (!account && key && body.model ==> cooldown == 5_000_000_000)
            && (request ==> cooldown == 5_000_000_000)
            && (!account && !key && !request && retryAfter > 0 ==> cooldown == retryAfter)
            && (!account && !key && !request && retryAfter == 0 ==> cooldown == 60_000_000_000)
  {
  }

  /** Why, and how widely: one model only when the text complains of it over a key or a
      request; a key only on a 401 or 403 that does neither that nor speak of quota. */
  lemma ReasonsAre(status: int, body: Body, retryAfter: int)
    ensures var c := ClassifyUpstream(status, body, retryAfter);
            && (c.modelScoped <==> body.model && status in {400, 401, 403, 404, 413, 422} && !(status == 403 && body.quota))
            && (c.reason == "auth" <==> status in {401, 403} && !body.model && !(status == 403 && body.quota))
            && (c.reason == "limit" <==> status in {402, 429} || (status == 403 && body.quota))
            && (c.reason != "auth" && c.reason != "limit" ==> c.reason == "error")
  {
  }
}
