/**
 * The sitemap endpoint: the client address it logs, and how the generated
 * sitemap becomes a 200, 404 or 500 response.
 *
 * The client address is the first element of X-Forwarded-For, else
 * X-Real-IP, else the connection's remote address. The generated sitemap is
 * an input (`Failure` when generating it throws).
 */
module Sitemap {
  import opened Common
  import opened Text

  /** The list without its trailing empty strings. */
  function DropTrailingEmpty(parts: seq<string>): (r: seq<string>)
    ensures |r| <= |parts| && r == parts[..|r|]
    ensures r != [] ==> r[|r| - 1] != []
    ensures forall k :: |r| <= k < |parts| ==> parts[k] == []
  {
    if parts == [] || parts[|parts| - 1] != [] then parts else DropTrailingEmpty(parts[..|parts| - 1])
  }

  /**
   * Java's String.split with a one-character separator: the pieces with the
   * trailing empty ones removed; the empty string splits into one empty piece.
   */
  function JavaSplit(s: string, sep: char): seq<string>
  {
    if s == [] then [""] else DropTrailingEmpty(Pieces(s, sep))
  }

  /** A string without the separator is one piece. */
  lemma PiecesNoSep(s: string, sep: char)
    requires sep !in s
    ensures Pieces(s, sep) == [s]
  {
    var i := IndexOfChar(s, sep);
    assert i < 0;
  }

  /** Every piece of a string made of separators only is empty. */
  lemma {:induction false} PiecesOfSeparators(s: string, sep: char)
    requires forall k :: 0 <= k < |s| ==> s[k] == sep
    ensures forall k :: 0 <= k < |Pieces(s, sep)| ==> Pieces(s, sep)[k] == []
    decreases |s|
  {
    var i := IndexOfChar(s, sep);
    if i >= 0 {
      assert i == 0;
      PiecesOfSeparators(s[i + 1..], sep);
    }
  }

  /** A string with a character other than the separator has a non-empty piece. */
  lemma {:induction false} PiecesNonEmpty(s: string, sep: char, k: nat)
    requires k < |s| && s[k] != sep
    ensures exists j :: 0 <= j < |Pieces(s, sep)| && Pieces(s, sep)[j] != []
    decreases |s|
  {
    var i := IndexOfChar(s, sep);
    var p := Pieces(s, sep);
    if i < 0 {
      assert p[0] == s;
    } else if k < i {
      assert p[0] == s[..i];
      assert s[..i][k] == s[k];
    } else {
      assert k > i;
      PiecesNonEmpty(s[i + 1..], sep, k - i - 1);
      var j :| 0 <= j < |Pieces(s[i + 1..], sep)| && Pieces(s[i + 1..], sep)[j] != [];
      assert p[j + 1] == Pieces(s[i + 1..], sep)[j];
    }
  }

  /** split(",") yields no element exactly when the string is made of commas only and is not empty. */
  lemma SplitEmptyIffOnlySeparators(s: string, sep: char)
    ensures JavaSplit(s, sep) == [] <==> s != [] && forall k :: 0 <= k < |s| ==> s[k] == sep
  {
    if s != [] {
      var p := Pieces(s, sep);
      if forall k :: 0 <= k < |s| ==> s[k] == sep {
        PiecesOfSeparators(s, sep);
      } else {
        var k :| 0 <= k < |s| && s[k] != sep;
        PiecesNonEmpty(s, sep, k);
        var j :| 0 <= j < |p| && p[j] != [];
        assert DropTrailingEmpty(p) != [];
      }
    }
  }

  /** "unknown".equalsIgnoreCase(h), with ASCII case folding. */
  predicate IsUnknown(h: string)
  {
    Lower(h) == "unknown"
  }

  /** A header that is used: it has text and is not "unknown". */
  predicate Usable(h: Option<string>)
  {
    HasText(h) && !IsUnknown(h.value)
  }

  /** The request as getClientIpAddress reads it. */
  datatype Request = Request(forwardedFor: Option<string>, realIp: Option<string>, remoteAddr: string)

  /**
   * getClientIpAddress as written: None where `split(",")[0]` throws because
   * X-Forwarded-For is made of commas only.
   */
  function ClientIpAddressAsWritten(req: Request): (r: Option<string>)
  {
    if Usable(req.forwardedFor) then
      var parts := JavaSplit(req.forwardedFor.value, ',');
      if parts == [] then None else Some(JavaTrim(parts[0]))
    else if Usable(req.realIp) then Some(req.realIp.value)
    else Some(req.remoteAddr)
  }

  /** The as-written address throws exactly for a usable X-Forwarded-For made of commas only. */
  lemma AsWrittenThrowsOnCommas(req: Request)
    ensures ClientIpAddressAsWritten(req).None? <==>
      Usable(req.forwardedFor) && forall k :: 0 <= k < |req.forwardedFor.value| ==> req.forwardedFor.value[k] == ','
  {
    if Usable(req.forwardedFor) {
      SplitEmptyIffOnlySeparators(req.forwardedFor.value, ',');
    }
  }

  /**
   * The client address as evidently intended: a usable X-Forwarded-For
   * gives its first element, trimmed; one without any element is skipped
   * like an unusable one.
   */
  function ClientIpAddress(req: Request): (r: string)
    ensures ClientIpAddressAsWritten(req).Some? ==> r == ClientIpAddressAsWritten(req).value
  {
    var parts := if Usable(req.forwardedFor) then JavaSplit(req.forwardedFor.value, ',') else [];
    if parts != [] then JavaTrim(parts[0])
    else if Usable(req.realIp) then req.realIp.value
    else req.remoteAddr
  }

  /** The precedence of the three sources. */
  lemma ClientIpAddressOrder(req: Request)
    ensures Usable(req.forwardedFor) && ',' !in req.forwardedFor.value ==>
      ClientIpAddress(req) == JavaTrim(req.forwardedFor.value)
    ensures !Usable(req.forwardedFor) && Usable(req.realIp) ==> ClientIpAddress(req) == req.realIp.value
    ensures !Usable(req.forwardedFor) && !Usable(req.realIp) ==> ClientIpAddress(req) == req.remoteAddr
  {
    if Usable(req.forwardedFor) && ',' !in req.forwardedFor.value {
      var h := req.forwardedFor.value;
      PiecesNoSep(h, ',');
      assert h != [];
    }
  }

  /** A reply: status code, headers, body. */
  datatype Response = Response(status: int, contentType: Option<string>, cacheControl: Option<string>,
                               robotsTag: Option<string>, body: Option<string>)

  const XML := "application/xml"
  const ERROR_BODY := "<?xml version=\"1.0\" encoding=\"UTF-8\"?><error>Sitemap生成失败</error>"

  /** The reply for a generated sitemap once the address has been logged. */
  function SitemapReply(generated: Result<Option<string>, string>): (r: Response)
    ensures generated.Success? && HasText(generated.value) ==>
      r == Response(200, Some(XML), Some("max-age=3600"), Some("noindex"), generated.value)
    ensures generated.Success? && !HasText(generated.value) ==> r == Response(404, None, None, None, None)
    ensures generated.Failure? ==> r == Response(500, None, None, None, Some(ERROR_BODY))
  {
    if generated.Failure? then Response(500, None, None, None, Some(ERROR_BODY))
    else if HasText(generated.value) then Response(200, Some(XML), Some("max-age=3600"), Some("noindex"), generated.value)
    else Response(404, None, None, None, None)
  }

  /** getSitemap as written: the address is worked out, for the log, inside the try block. */
  function GetSitemapAsWritten(req: Request, generated: Result<Option<string>, string>): Response
  {
    if ClientIpAddressAsWritten(req).None? then Response(500, None, None, None, Some(ERROR_BODY))
    else SitemapReply(generated)
  }

  /** getSitemap with the corrected address: the reply depends on the sitemap alone. */
  function GetSitemap(req: Request, generated: Result<Option<string>, string>): (r: Response)
    ensures r == SitemapReply(generated)
  {
    var _ := ClientIpAddress(req);
    SitemapReply(generated)
  }

  /** The two agree whenever the as-written address does not throw. */
  lemma GetSitemapAgrees(req: Request, generated: Result<Option<string>, string>)
    requires ClientIpAddressAsWritten(req).Some?
    ensures GetSitemapAsWritten(req, generated) == GetSitemap(req, generated)
  {
  }

  lemma CommaOnlyHeaderUsable()
    ensures Usable(Some(","))
    ensures JavaSplit(",", ',') == []
  {
    assert !JavaIsWhitespace(","[0]);
    assert Lower(",") != "unknown";
    SplitEmptyIffOnlySeparators(",", ',');
  }

  /** X-Forwarded-For: "," turns a servable sitemap into a 500 as written, and a 200 once corrected. */
  lemma CommaOnlyForwardedForFails()
    ensures var req := Request(Some(","), None, "10.0.0.1");
      var gen := Success(Some("<urlset/>"));
      GetSitemapAsWritten(req, gen).status == 500 && GetSitemap(req, gen).status == 200
  {
    CommaOnlyHeaderUsable();
    assert HasText(Some("<urlset/>")) by {
      assert !JavaIsWhitespace("<urlset/>"[0]);
    }
  }
}
