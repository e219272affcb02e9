/**
 * The three request handlers of the URL shortener over the `urls` table.
 *
 * The table is a map from `short_code` to its row. Each handler is given twice:
 * as a function from (request, table, current time) to an `Outcome` (the reply
 * and the table afterwards), and as a method of `UrlStore` that works through
 * the same steps as the handler and updates the table in place. The current
 * time, the text of the random number used for a generated code, and whether
 * the database fails for a reason other than a duplicate key are parameters.
 */
module UrlController {
  import opened Wrappers
  import opened JsSemantics
  import opened ResponseHandler

  /** Prefix of every short URL handed out. */
  const BaseUrl := "http://localhost:3000/"
  /** Longest custom alias accepted, in UTF-16 code units. */
  const MaxAliasLength := 20
  /** Milliseconds in one hour: `expiresIn` is given in hours. */
  const MsPerHour := 3600000
  /** A generated code is `Math.random().toString(36).substring(2, 8)`. */
  const RandomStart := 2
  const RandomEnd := 8

  const MsgUrlRequired := "Original URL is required"
  const MsgAliasTooLong := "Alias must be 20 characters or less"
  const MsgAliasCharset := "Alias can only contain letters, numbers, hyphens, and underscores"
  const MsgAliasTaken := "Alias is already taken"
  const MsgInternal := "Internal Server Error"
  const MsgNotFound := "URL not found"
  const MsgExpired := "URL expired"

  /** One row of `urls`, without its key `short_code` and its opaque `id`. */
  datatype UrlRecord = UrlRecord(original_url: string, expires_at: Option<int>, click_count: nat, created_at: int)

  /** The body of `POST /shorten`; `None` is a missing (or null) field. */
  datatype CreateRequest = CreateRequest(original_url: Option<string>, expiresIn: Option<int>, alias: Option<string>)

  /** The reply of one handler and the table after it. */
  datatype Outcome = Outcome(reply: Reply, rows: map<string, UrlRecord>)

  /** Which columns a SELECT fetched. */
  datatype Projection = OriginalUrlOnly | AllColumns

  // ----- alias and generated codes -----

  predicate IsAliasChar(c: char) {
    'a' <= c <= 'z' || 'A' <= c <= 'Z' || '0' <= c <= '9' || c == '-' || c == '_'
  }

  /** `/^[a-zA-Z0-9-_]+$/.test(s)`. */
  predicate MatchesAliasPattern(s: string)
    ensures MatchesAliasPattern(s) ==> Utf16Length(s) == |s|
    ensures IsValidAlias(s) <==> MatchesAliasPattern(s) && |s| <= MaxAliasLength
  {
    AliasCharsLength(s);
    |s| > 0 && forall i | 0 <= i < |s| :: IsAliasChar(s[i])
  }

  /** Reference definition of an acceptable alias: one to twenty characters from `[A-Za-z0-9_-]`. */
  predicate IsValidAlias(s: string) {
    1 <= |s| <= MaxAliasLength && forall i | 0 <= i < |s| :: IsAliasChar(s[i])
  }

  predicate IsBase36Digit(c: char) {
    '0' <= c <= '9' || 'a' <= c <= 'z'
  }

  /**
   * The texts `Math.random().toString(36)` can produce for a number in [0, 1):
   * "0", or "0." followed by lower-case base-36 digits.
   */
  predicate IsRandomText(t: string)
    ensures IsRandomText(t) ==> InBmp(t) && (|t| == 1 || |t| >= 3)
  {
    t == "0" || (|t| >= 3 && t[0] == '0' && t[1] == '.' && forall i | 2 <= i < |t| :: IsBase36Digit(t[i]))
  }

  /** The code derived from the random text; it is empty only for the text "0". */
  function RandomCode(randomText: string): (code: string)
    ensures IsRandomText(randomText) ==> |code| <= RandomEnd - RandomStart
    ensures IsRandomText(randomText) ==> forall i | 0 <= i < |code| :: IsBase36Digit(code[i])
    ensures IsRandomText(randomText) ==> (code == "" <==> randomText == "0")
  {
    Substring(randomText, RandomStart, RandomEnd)
  }

  /** Alias characters are ASCII, so a string of them has as many UTF-16 units as characters. */
  lemma AliasCharsLength(s: string)
    ensures (forall i | 0 <= i < |s| :: IsAliasChar(s[i])) ==> Utf16Length(s) == |s|
  {
    if forall i | 0 <= i < |s| :: IsAliasChar(s[i]) {
      assert InBmp(s) by {
        forall i | 0 <= i < |s| ensures s[i] as int <= 0xFFFF {
          assert IsAliasChar(s[i]);
        }
      }
      Utf16LengthOfBmp(s);
    }
  }

  /**
   * The short code for a request whose URL is present, or the message of the
   * 400 reply that rejects its alias. A truthy alias is checked for length,
   * then for its characters, and kept verbatim; otherwise a code is generated.
   */
  function ChooseCode(alias: Option<string>, randomText: string): (r: Result<string, string>)
    ensures StringTruthy(alias) ==> (r.Ok? <==> IsValidAlias(alias.value))
    ensures StringTruthy(alias) && r.Ok? ==> r.value == alias.value
    ensures !StringTruthy(alias) ==> r == Ok(RandomCode(randomText))
    ensures r.Err? ==> r.error in {MsgAliasTooLong, MsgAliasCharset}
  {
    if StringTruthy(alias) then
      var a := alias.value;
      AliasCharsLength(a);
      if Utf16Length(a) > MaxAliasLength then Err(MsgAliasTooLong)
      else if !MatchesAliasPattern(a) then Err(MsgAliasCharset)
      else Ok(a)
    else
      Ok(RandomCode(randomText))
  }

  /** `expiresIn ? new Date(Date.now() + expiresIn * 3600000) : null`, in milliseconds. */
  function ExpiryFor(expiresIn: Option<int>, now: int): (e: Option<int>)
    ensures e.Some? <==> IntTruthy(expiresIn)
    ensures e.Some? ==> e.value - now == expiresIn.value * MsPerHour
  {
    if IntTruthy(expiresIn) then Some(now + expiresIn.value * MsPerHour) else None
  }

  /** What `row.expires_at` reads as when the query fetched `projection`. */
  function ExpiresAtAsRead(row: UrlRecord, projection: Projection): (v: ColumnValue)
    ensures projection == OriginalUrlOnly ==> v == NotSelected
    ensures projection == AllColumns ==> (v == SqlNull <==> row.expires_at.None?)
    ensures projection == AllColumns && row.expires_at.Some? ==> v == Timestamp(row.expires_at.value)
  {
    match projection
    case OriginalUrlOnly => NotSelected
    case AllColumns =>
      match row.expires_at
      case None => SqlNull
      case Some(ms) => Timestamp(ms)
  }

  // ----- the handlers as functions of (request, table, time) -----

  /** `INSERT INTO urls ...`: fails on a database fault, then on a duplicate key. */
  function InsertOutcome(rows: map<string, UrlRecord>, code: string, row: UrlRecord, storeFault: bool): (o: Outcome)
    ensures storeFault ==> o == Outcome(Error(MsgInternal, 500), rows)
    ensures !storeFault && code in rows ==> o == Outcome(Error(MsgAliasTaken, 400), rows)
    ensures !storeFault && code !in rows ==> o.reply == Success(ShortUrl(BaseUrl + code)) && o.rows == rows[code := row]
    ensures o.rows == rows || (code !in rows && o.rows == rows[code := row])
  {
    if storeFault then Outcome(Error(MsgInternal, 500), rows)
    else if code in rows then Outcome(Error(MsgAliasTaken, 400), rows)
    else Outcome(Success(ShortUrl(BaseUrl + code)), rows[code := row])
  }

  /** `createShortUrl`. */
  function CreateOutcome(rows: map<string, UrlRecord>, req: CreateRequest, now: int,
                         randomText: string, storeFault: bool): (o: Outcome)
    ensures o.reply.Json?
    ensures o.rows.Keys >= rows.Keys && |o.rows.Keys - rows.Keys| <= 1
    ensures forall k | k in rows :: o.rows[k] == rows[k]
  {
    if !StringTruthy(req.original_url) then Outcome(Error(MsgUrlRequired, 400), rows)
    else
      match ChooseCode(req.alias, randomText)
      case Err(message) => Outcome(Error(message, 400), rows)
      case Ok(code) =>
        var row := UrlRecord(req.original_url.value, ExpiryFor(req.expiresIn, now), 0, now);
        assert rows[code := row].Keys - rows.Keys <= {code};
        InsertOutcome(rows, code, row, storeFault)
  }

  /** `rows[code]` with its click counter one higher. */
  function Clicked(row: UrlRecord): (r: UrlRecord)
    ensures r.click_count == row.click_count + 1
    ensures r.original_url == row.original_url && r.expires_at == row.expires_at && r.created_at == row.created_at
  {
    row.(click_count := row.click_count + 1)
  }

  /** `redirectToOriginal`: the SELECT fetches only `original_url`. */
  function RedirectOutcome(rows: map<string, UrlRecord>, code: string, now: int): (o: Outcome)
    ensures o.rows.Keys == rows.Keys
    ensures forall k | k in rows && k != code :: o.rows[k] == rows[k]
  {
    if code !in rows then Outcome(Error(MsgNotFound, 404), rows)
    else if BeforeNow(ExpiresAtAsRead(rows[code], OriginalUrlOnly), now) then Outcome(Error(MsgExpired, 404), rows)
    else Outcome(Redirect(RedirectStatus, rows[code].original_url), rows[code := Clicked(rows[code])])
  }

  /** `getAnalytics`: the SELECT fetches every column; nothing is written. */
  function AnalyticsReply(rows: map<string, UrlRecord>, code: string, now: int): (r: Reply)
    ensures r.Json?
    ensures r.body.success ==> code in rows
  {
    if code !in rows then Error(MsgNotFound, 404)
    else
      var row := rows[code];
      if BeforeNow(ExpiresAtAsRead(row, AllColumns), now) then Error(MsgExpired, 404)
      else Success(Analytics(row.original_url, code, row.created_at, row.expires_at, row.click_count))
  }

  // ----- the handlers as steps on the table -----

  /** The `urls` table, updated in place by the handlers. */
  class UrlStore {
    var rows: map<string, UrlRecord>

    constructor ()
      ensures rows == map[]
    {
      rows := map[];
    }

    /** `createShortUrl`: validate, choose a code, insert. Existing rows never change. */
    method CreateShortUrl(req: CreateRequest, now: int, randomText: string, storeFault: bool) returns (reply: Reply)
      modifies this
      ensures Outcome(reply, rows) == CreateOutcome(old(rows), req, now, randomText, storeFault)
      ensures forall k | k in old(rows) :: k in rows && rows[k] == old(rows)[k]
      ensures rows == old(rows) || |rows| == |old(rows)| + 1
    {
      if !StringTruthy(req.original_url) {
        return Error(MsgUrlRequired, 400);
      }
      var shortCode: string;
      if StringTruthy(req.alias) {
        var alias := req.alias.value;
        if Utf16Length(alias) > MaxAliasLength {
          return Error(MsgAliasTooLong, 400);
        }
        if !MatchesAliasPattern(alias) {
          return Error(MsgAliasCharset, 400);
        }
        shortCode := alias;
      } else {
        shortCode := RandomCode(randomText);
      }
      var expirationDate := ExpiryFor(req.expiresIn, now);
      if storeFault {
        return Error(MsgInternal, 500);
      }
      if shortCode in rows {
        return Error(MsgAliasTaken, 400);
      }
      rows := rows[shortCode := UrlRecord(req.original_url.value, expirationDate, 0, now)];
      reply := Success(ShortUrl(BaseUrl + shortCode));
    }

    /** `redirectToOriginal`: look up, bump that row's counter, redirect. Other rows never change. */
    method RedirectToOriginal(code: string, now: int) returns (reply: Reply)
      modifies this
      ensures Outcome(reply, rows) == RedirectOutcome(old(rows), code, now)
      ensures rows.Keys == old(rows).Keys
      ensures forall k | k in rows && k != code :: rows[k] == old(rows)[k]
    {
      if code !in rows {
        return Error(MsgNotFound, 404);
      }
      var selected := ExpiresAtAsRead(rows[code], OriginalUrlOnly);
      if BeforeNow(selected, now) {
        return Error(MsgExpired, 404);
      }
      var originalUrl := rows[code].original_url;
      rows := rows[code := Clicked(rows[code])];
      reply := Redirect(RedirectStatus, originalUrl);
    }

    /** `getAnalytics`: a read-only lookup (the method may not modify the table). */
    method GetAnalytics(code: string, now: int) returns (reply: Reply)
      ensures reply == AnalyticsReply(rows, code, now)
    {
      if code !in rows {
        return Error(MsgNotFound, 404);
      }
      var row := rows[code];
      if BeforeNow(ExpiresAtAsRead(row, AllColumns), now) {
        return Error(MsgExpired, 404);
      }
      reply := Success(Analytics(row.original_url, code, row.created_at, row.expires_at, row.click_count));
    }
  }
}
