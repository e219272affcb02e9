/**
 * Properties of the three handlers, stated over their functional models in
 * `UrlController`: the order of the creation checks, the codes a creation can
 * produce, what each handler does to the table, and how they interact.
 */
module UrlProperties {
  import opened Wrappers
  import opened JsSemantics
  import opened ResponseHandler
  import opened UrlController

  // ----- short URLs -----

  /** `url.split("/").pop()`: the text after the last slash (all of it when there is none). */
  function LastSegment(s: string): (seg: string)
    ensures |seg| <= |s| && seg == s[|s| - |seg|..]
    ensures forall i | 0 <= i < |seg| :: seg[i] != '/'
    ensures |seg| == |s| || s[|s| - |seg| - 1] == '/'
  {
    if s == [] then []
    else if s[|s| - 1] == '/' then []
    else LastSegment(s[..|s| - 1]) + [s[|s| - 1]]
  }

  /** The last segment of a text ending in `/` followed by a slash-free code is that code. */
  lemma {:induction false} LastSegmentAfterSlash(prefix: string, code: string)
    requires |prefix| > 0 && prefix[|prefix| - 1] == '/'
    requires forall i | 0 <= i < |code| :: code[i] != '/'
    ensures LastSegment(prefix + code) == code
  {
    if code != [] {
      var init := code[..|code| - 1];
      assert (prefix + code)[..|prefix + code| - 1] == prefix + init;
      LastSegmentAfterSlash(prefix, init);
      assert code == init + [code[|code| - 1]];
    } else {
      assert prefix + code == prefix;
    }
  }

  // ----- createShortUrl -----

  /** A missing or empty `original_url` is refused before the alias is looked at, and nothing is stored. */
  lemma CreateRequiresUrl(rows: map<string, UrlRecord>, req: CreateRequest, now: int, randomText: string, storeFault: bool)
    requires !StringTruthy(req.original_url)
    ensures CreateOutcome(rows, req, now, randomText, storeFault) == Outcome(Error(MsgUrlRequired, 400), rows)
  {
  }

  /** An alias longer than 20 UTF-16 units gets the length message, whatever characters it holds. */
  lemma CreateRejectsLongAlias(rows: map<string, UrlRecord>, req: CreateRequest, now: int, randomText: string, storeFault: bool)
    requires StringTruthy(req.original_url)
    requires req.alias.Some? && Utf16Length(req.alias.value) > MaxAliasLength
    ensures CreateOutcome(rows, req, now, randomText, storeFault) == Outcome(Error(MsgAliasTooLong, 400), rows)
  {
  }

  /** An alias within the length limit holding a character outside `[A-Za-z0-9_-]` gets the character message. */
  lemma CreateRejectsAliasCharacter(rows: map<string, UrlRecord>, req: CreateRequest, now: int,
                                    randomText: string, storeFault: bool, i: nat)
    requires StringTruthy(req.original_url)
    requires req.alias.Some? && Utf16Length(req.alias.value) <= MaxAliasLength
    requires i < |req.alias.value| && !IsAliasChar(req.alias.value[i])
    ensures CreateOutcome(rows, req, now, randomText, storeFault) == Outcome(Error(MsgAliasCharset, 400), rows)
  {
  }

  /**
   * A valid alias becomes the short code verbatim: it is stored with a zero
   * counter, the creation time and the computed expiry, unless it is taken.
   */
  lemma CreateWithAlias(rows: map<string, UrlRecord>, req: CreateRequest, now: int, randomText: string)
    requires StringTruthy(req.original_url)
    requires req.alias.Some? && IsValidAlias(req.alias.value)
    ensures var o := CreateOutcome(rows, req, now, randomText, false);
            var a := req.alias.value;
            && (a in rows ==> o == Outcome(Error(MsgAliasTaken, 400), rows))
            && (a !in rows ==> o == Outcome(Success(ShortUrl(BaseUrl + a)),
                                            rows[a := UrlRecord(req.original_url.value, ExpiryFor(req.expiresIn, now), 0, now)]))
  {
  }

  /**
   * Without a truthy alias the code comes from the random text: at most six
   * characters from `[0-9a-z]`, so a non-empty one also passes the alias rules.
   */
  lemma CreateWithGeneratedCode(rows: map<string, UrlRecord>, req: CreateRequest, now: int, randomText: string, storeFault: bool)
    requires StringTruthy(req.original_url) && !StringTruthy(req.alias)
    requires IsRandomText(randomText)
    ensures var code := RandomCode(randomText);
            && |code| <= 6
            && (forall i | 0 <= i < |code| :: IsBase36Digit(code[i]))
            && (code != "" ==> IsValidAlias(code) && ChooseCode(Some(code), randomText) == Ok(code))
            && var row := UrlRecord(req.original_url.value, ExpiryFor(req.expiresIn, now), 0, now);
               var o := CreateOutcome(rows, req, now, randomText, storeFault);
               && o == InsertOutcome(rows, code, row, storeFault)
               && (storeFault ==> o == Outcome(Error(MsgInternal, 500), rows))
               && (!storeFault && code in rows ==> o == Outcome(Error(MsgAliasTaken, 400), rows))
               && (!storeFault && code !in rows ==> o == Outcome(Success(ShortUrl(BaseUrl + code)), rows[code := row]))
  {
    var code := RandomCode(randomText);
    if code != "" {
      assert IsValidAlias(code) by {
        forall i | 0 <= i < |code| ensures IsAliasChar(code[i]) {
          assert IsBase36Digit(code[i]);
        }
      }
    }
  }

  /** A database failure other than a duplicate key gives 500 once the input is valid, and stores nothing. */
  lemma CreateStoreFault(rows: map<string, UrlRecord>, req: CreateRequest, now: int, randomText: string)
    requires StringTruthy(req.original_url) && ChooseCode(req.alias, randomText).Ok?
    ensures CreateOutcome(rows, req, now, randomText, true) == Outcome(Error(MsgInternal, 500), rows)
  {
  }

  /**
   * The reply and the table agree: a failed creation leaves the table as it
   * was and answers 400 or 500; a successful one answers 200 with a short URL
   * whose last segment is a code that was free and now holds exactly the new row.
   */
  lemma CreateReplyMatchesTable(rows: map<string, UrlRecord>, req: CreateRequest, now: int, randomText: string, storeFault: bool)
    requires IsRandomText(randomText)
    ensures var o := CreateOutcome(rows, req, now, randomText, storeFault);
            && (o.reply.body.success <==> o.rows != rows)
            && (!o.reply.body.success ==> o.reply.status in {400, 500})
            && (o.reply.body.success ==>
                  && StringTruthy(req.original_url)
                  && o.reply.status == 200
                  && o.reply.body.data.Some? && o.reply.body.data.value.ShortUrl?
                  && var code := LastSegment(o.reply.body.data.value.short_url);
                     && o.reply.body.data.value.short_url == BaseUrl + code
                     && code !in rows
                     && o.rows == rows[code := UrlRecord(req.original_url.value, ExpiryFor(req.expiresIn, now), 0, now)])
  {
    var o := CreateOutcome(rows, req, now, randomText, storeFault);
    if StringTruthy(req.original_url) {
      var chosen := ChooseCode(req.alias, randomText);
      if chosen.Ok? {
        var code := chosen.value;
        var row := UrlRecord(req.original_url.value, ExpiryFor(req.expiresIn, now), 0, now);
        assert forall i | 0 <= i < |code| :: code[i] != '/' by {
          if StringTruthy(req.alias) {
            assert IsValidAlias(code);
            forall i | 0 <= i < |code| ensures code[i] != '/' {
              assert IsAliasChar(code[i]);
            }
          } else {
            forall i | 0 <= i < |code| ensures code[i] != '/' {
              assert IsBase36Digit(code[i]);
            }
          }
        }
        LastSegmentAfterSlash(BaseUrl, code);
        if !storeFault && code !in rows {
          assert code in o.rows && code !in rows;
        }
      }
    }
  }

  /** Creating the same valid alias twice: the first succeeds, the second is told the alias is taken. */
  lemma AliasTakenOnSecondCreate(rows: map<string, UrlRecord>, first: CreateRequest, second: CreateRequest,
                                 now1: int, now2: int, randomText1: string, randomText2: string)
    requires StringTruthy(first.original_url) && StringTruthy(second.original_url)
    requires first.alias.Some? && IsValidAlias(first.alias.value) && second.alias == first.alias
    requires first.alias.value !in rows
    ensures var o1 := CreateOutcome(rows, first, now1, randomText1, false);
            && o1.reply == Success(ShortUrl(BaseUrl + first.alias.value))
            && CreateOutcome(o1.rows, second, now2, randomText2, false) == Outcome(Error(MsgAliasTaken, 400), o1.rows)
  {
    var o1 := CreateOutcome(rows, first, now1, randomText1, false);
    CreateWithAlias(rows, first, now1, randomText1);
    CreateWithAlias(o1.rows, second, now2, randomText2);
  }

  // ----- redirectToOriginal -----

  /** An unknown code gives 404 and no change. */
  lemma RedirectUnknown(rows: map<string, UrlRecord>, code: string, now: int)
    requires code !in rows
    ensures RedirectOutcome(rows, code, now) == Outcome(Error(MsgNotFound, 404), rows)
  {
  }

  /**
   * A known code redirects to its URL whatever its expiry and the time (the
   * SELECT does not fetch `expires_at`), and its counter goes up by exactly one.
   */
  lemma RedirectKnown(rows: map<string, UrlRecord>, code: string, now: int)
    requires code in rows
    ensures var o := RedirectOutcome(rows, code, now);
            && o.reply == Redirect(302, rows[code].original_url)
            && o.rows == rows[code := rows[code].(click_count := rows[code].click_count + 1)]
  {
  }

  /** The redirect handler never answers "URL expired": it redirects exactly when the code exists. */
  lemma RedirectNeverExpired(rows: map<string, UrlRecord>, code: string, now: int)
    ensures RedirectOutcome(rows, code, now).reply != Error(MsgExpired, 404)
    ensures RedirectOutcome(rows, code, now).reply.Redirect? <==> code in rows
  {
  }

  /** The table after one redirect request per entry of `times`, in order. */
  function RedirectAll(rows: map<string, UrlRecord>, code: string, times: seq<int>): (r: map<string, UrlRecord>)
    ensures r.Keys == rows.Keys
  {
    if times == [] then rows
    else RedirectAll(RedirectOutcome(rows, code, times[0]).rows, code, times[1..])
  }

  /** N redirects of a known code raise its counter by N and touch nothing else. */
  lemma {:induction false} RedirectCountsEveryVisit(rows: map<string, UrlRecord>, code: string, times: seq<int>)
    requires code in rows
    ensures var r := RedirectAll(rows, code, times);
            && r[code] == rows[code].(click_count := rows[code].click_count + |times|)
            && forall k | k in rows && k != code :: r[k] == rows[k]
  {
    if times != [] {
      var next := RedirectOutcome(rows, code, times[0]).rows;
      RedirectKnown(rows, code, times[0]);
      RedirectCountsEveryVisit(next, code, times[1..]);
    }
  }

  // ----- getAnalytics -----

  /** An unknown code gives 404 "URL not found". */
  lemma AnalyticsUnknown(rows: map<string, UrlRecord>, code: string, now: int)
    requires code !in rows
    ensures AnalyticsReply(rows, code, now) == Error(MsgNotFound, 404)
  {
  }

  /**
   * A row is reported expired when its expiry lies before now, and also when
   * it has none and now is positive: null compares as 0.
   */
  lemma AnalyticsExpired(rows: map<string, UrlRecord>, code: string, now: int)
    requires code in rows
    requires match rows[code].expires_at
             case Some(t) => t < now
             case None => 0 < now
    ensures AnalyticsReply(rows, code, now) == Error(MsgExpired, 404)
  {
  }

  /** Otherwise the stored fields are reported exactly as stored. */
  lemma AnalyticsReportsRow(rows: map<string, UrlRecord>, code: string, now: int)
    requires code in rows
    requires match rows[code].expires_at
             case Some(t) => now <= t
             case None => now <= 0
    ensures var row := rows[code];
            AnalyticsReply(rows, code, now)
            == Success(Analytics(row.original_url, code, row.created_at, row.expires_at, row.click_count))
  {
  }

  /** A row created with `expiresIn` = h hours at time t is reported until t + h hours and expired after. */
  lemma AnalyticsAfterCreate(rows: map<string, UrlRecord>, req: CreateRequest, created: int, now: int, randomText: string)
    requires StringTruthy(req.original_url) && IntTruthy(req.expiresIn)
    requires req.alias.Some? && IsValidAlias(req.alias.value) && req.alias.value !in rows
    ensures var o := CreateOutcome(rows, req, created, randomText, false);
            AnalyticsReply(o.rows, req.alias.value, now).body.success
            <==> now <= created + req.expiresIn.value * MsPerHour
  {
    CreateWithAlias(rows, req, created, randomText);
  }

  /** The analytics of a code count the redirect that came before them. */
  lemma AnalyticsSeesRedirect(rows: map<string, UrlRecord>, code: string, visit: int, now: int)
    requires code in rows && AnalyticsReply(rows, code, now).body.success
    ensures var after := RedirectOutcome(rows, code, visit).rows;
            var r := AnalyticsReply(after, code, now);
            && r.body.success
            && r.body.data == Some(Analytics(rows[code].original_url, code, rows[code].created_at,
                                             rows[code].expires_at, rows[code].click_count + 1))
  {
  }

  // ----- the envelope -----

  /** Every JSON reply of the handlers is a well-formed envelope without an `error` field. */
  lemma HandlerEnvelopes(rows: map<string, UrlRecord>, req: CreateRequest, code: string, now: int,
                         randomText: string, storeFault: bool)
    ensures var c := CreateOutcome(rows, req, now, randomText, storeFault).reply;
            c.Json? && WellFormed(c.body) && c.body.error.None?
    ensures var r := RedirectOutcome(rows, code, now).reply;
            r.Json? ==> WellFormed(r.body) && r.body.error.None?
    ensures var a := AnalyticsReply(rows, code, now);
            WellFormed(a.body) && a.body.error.None?
  {
  }
}
