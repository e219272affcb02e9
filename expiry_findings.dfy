/**
 * Expiry as the handlers check it, against expiry as the data model means it:
 * `expires_at` null means "never expires", and a link past its expiry is
 * neither followed nor reported. Both handlers in `UrlController` follow the
 * code as written; the intended handlers below differ from them only in the
 * expiry test, and the lemmas say exactly where the two disagree.
 */
module ExpiryFindings {
  import opened Wrappers
  import opened JsSemantics
  import opened ResponseHandler
  import opened UrlController

  /** The intended expiry test: only a stored expiry that lies before now counts. */
  predicate IsExpired(expires_at: Option<int>, now: int) {
    expires_at.Some? && expires_at.value < now
  }

  /** The redirect handler with the expiry check the code evidently meant to make. */
  function IntendedRedirectOutcome(rows: map<string, UrlRecord>, code: string, now: int): (o: Outcome)
    ensures o.reply.Redirect? <==> code in rows && !IsExpired(rows[code].expires_at, now)
    ensures !o.reply.Redirect? ==> o.rows == rows
  {
    if code !in rows then Outcome(Error(MsgNotFound, 404), rows)
    else if IsExpired(rows[code].expires_at, now) then Outcome(Error(MsgExpired, 404), rows)
    else Outcome(Redirect(RedirectStatus, rows[code].original_url), rows[code := Clicked(rows[code])])
  }

  /** The analytics handler with the intended expiry check. */
  function IntendedAnalyticsReply(rows: map<string, UrlRecord>, code: string, now: int): (r: Reply)
    ensures r.Json?
    ensures r.body.success <==> code in rows && !IsExpired(rows[code].expires_at, now)
  {
    if code !in rows then Error(MsgNotFound, 404)
    else
      var row := rows[code];
      if IsExpired(row.expires_at, now) then Error(MsgExpired, 404)
      else Success(Analytics(row.original_url, code, row.created_at, row.expires_at, row.click_count))
  }

  /** A link that never expires is reported at every time by the intended analytics. */
  lemma IntendedNullNeverExpires(rows: map<string, UrlRecord>, code: string, now: int)
    requires code in rows && rows[code].expires_at.None?
    ensures IntendedAnalyticsReply(rows, code, now).body.success
    ensures IntendedRedirectOutcome(rows, code, now).reply == Redirect(302, rows[code].original_url)
  {
  }

  /** The analytics as written agree with the intended ones except on rows with a null expiry
      at a positive time. */
  lemma AnalyticsAgreesUnlessNull(rows: map<string, UrlRecord>, code: string, now: int)
    ensures AnalyticsReply(rows, code, now) == IntendedAnalyticsReply(rows, code, now)
            <==> code !in rows || rows[code].expires_at.Some? || now <= 0
  {
  }

  /** The redirect as written agrees with the intended one except on links past their expiry. */
  lemma RedirectAgreesUnlessExpired(rows: map<string, UrlRecord>, code: string, now: int)
    ensures RedirectOutcome(rows, code, now) == IntendedRedirectOutcome(rows, code, now)
            <==> code !in rows || !IsExpired(rows[code].expires_at, now)
  {
  }

  /** A link created without `expiresIn` is reported as "URL expired" by the analytics as written. */
  lemma AnalyticsReportsEternalLinkExpired()
    ensures var rows := map["abc" := UrlRecord("https://example.com", None, 0, 1)];
            && AnalyticsReply(rows, "abc", 2) == Error(MsgExpired, 404)
            && IntendedAnalyticsReply(rows, "abc", 2).body.success
  {
  }

  /** A link one hour past its expiry is still followed, and counted, by the redirect as written. */
  lemma RedirectFollowsExpiredLink()
    ensures var rows := map["abc" := UrlRecord("https://example.com", Some(3600000), 0, 0)];
            && RedirectOutcome(rows, "abc", 7200000).reply == Redirect(302, "https://example.com")
            && RedirectOutcome(rows, "abc", 7200000).rows["abc"].click_count == 1
            && IntendedRedirectOutcome(rows, "abc", 7200000) == Outcome(Error(MsgExpired, 404), rows)
  {
  }
}
