/**
 * The XSS filter helpers: HTML escaping, sanitising with a fallback to
 * escaping, detection of content the sanitiser would change, and the
 * trim / length / emptiness checks around sanitising user input.
 *
 * The OWASP sanitiser policies are a foreign library; they are the parameter
 * `sanitize`, which gives the sanitised text for a policy, or None when the
 * library throws.
 */
module XssFilter {
  import opened Common
  import opened Text

  /** The three sanitiser policies: no tags, basic formatting tags, rich-text tags. */
  datatype Policy = Strict | BasicFormat | RichText

  type Sanitizer = (Policy, string) -> Option<string>

  /** Java's String.replace with a one-character target: every `c` becomes `rep`. */
  function ReplaceChar(s: string, c: char, rep: string): (r: string)
    ensures c !in s ==> r == s
  {
    if s == [] then [] else (if s[0] == c then rep else [s[0]]) + ReplaceChar(s[1..], c, rep)
  }

  lemma {:induction false} ReplaceCharAppend(a: string, b: string, c: char, rep: string)
    ensures ReplaceChar(a + b, c, rep) == ReplaceChar(a, c, rep) + ReplaceChar(b, c, rep)
  {
    if a == [] {
      assert a + b == b;
    } else {
      assert (a + b)[1..] == a[1..] + b;
      ReplaceCharAppend(a[1..], b, c, rep);
    }
  }

  lemma ReplaceCharSingle(x: char, c: char, rep: string)
    ensures ReplaceChar([x], c, rep) == if x == c then rep else [x]
  {
    assert [x][1..] == [];
  }

  /** The six replacements of escapeHtml, in the order the source applies them. */
  function ReplaceChain(s: string): string
  {
    ReplaceChar(ReplaceChar(ReplaceChar(ReplaceChar(ReplaceChar(ReplaceChar(
      s, '&', "&amp;"), '<', "&lt;"), '>', "&gt;"), '"', "&quot;"), '\'', "&#x27;"), '/', "&#x2F;")
  }

  /** escapeHtml: blank input (null, empty, whitespace only) is returned as it is. */
  function EscapeHtml(content: Option<string>): (r: Option<string>)
    ensures IsBlank(content) ==> r == content
    ensures !IsBlank(content) ==> r.Some?
  {
    if IsBlank(content) then content else Some(ReplaceChain(content.value))
  }

  /** The characters escapeHtml rewrites. */
  predicate Special(c: char)
  {
    c == '&' || c == '<' || c == '>' || c == '"' || c == '\'' || c == '/'
  }

  /** The entity for one character; other characters stand for themselves. */
  function EscapeChar(c: char): (r: string)
    ensures !Special(c) ==> r == [c]
    ensures forall k :: 0 <= k < |r| ==> r[k] == '&' || !Special(r[k])
    ensures |r| >= 1 && (r[0] == '&' <==> Special(c))
  {
    match c
    case '&' => "&amp;"
    case '<' => "&lt;"
    case '>' => "&gt;"
    case '"' => "&quot;"
    case '\'' => "&#x27;"
    case '/' => "&#x2F;"
    case _ => [c]
  }

  /** Every character escaped on its own, the escaped pieces concatenated. */
  function EscapeEach(s: string): (r: string)
    ensures |r| >= |s|
    ensures forall k :: 0 <= k < |r| ==> r[k] == '&' || !Special(r[k])
  {
    if s == [] then [] else EscapeChar(s[0]) + EscapeEach(s[1..])
  }

  lemma ChainAppend(a: string, b: string)
    ensures ReplaceChain(a + b) == ReplaceChain(a) + ReplaceChain(b)
  {
    var s1a := ReplaceChar(a, '&', "&amp;");
    var s1b := ReplaceChar(b, '&', "&amp;");
    ReplaceCharAppend(a, b, '&', "&amp;");
    var s2a := ReplaceChar(s1a, '<', "&lt;");
    var s2b := ReplaceChar(s1b, '<', "&lt;");
    ReplaceCharAppend(s1a, s1b, '<', "&lt;");
    var s3a := ReplaceChar(s2a, '>', "&gt;");
    var s3b := ReplaceChar(s2b, '>', "&gt;");
    ReplaceCharAppend(s2a, s2b, '>', "&gt;");
    var s4a := ReplaceChar(s3a, '"', "&quot;");
    var s4b := ReplaceChar(s3b, '"', "&quot;");
    ReplaceCharAppend(s3a, s3b, '"', "&quot;");
    var s5a := ReplaceChar(s4a, '\'', "&#x27;");
    var s5b := ReplaceChar(s4b, '\'', "&#x27;");
    ReplaceCharAppend(s4a, s4b, '\'', "&#x27;");
    ReplaceCharAppend(s5a, s5b, '/', "&#x2F;");
  }

  /** Each entity survives the later replacements untouched. */
  lemma ChainAmp()
    ensures ReplaceChain("&") == "&amp;"
  {
    ReplaceCharSingle('&', '&', "&amp;");
    assert '<' !in "&amp;" && '>' !in "&amp;" && '"' !in "&amp;" && '\'' !in "&amp;" && '/' !in "&amp;";
  }

  lemma ChainLt()
    ensures ReplaceChain("<") == "&lt;"
  {
    ReplaceCharSingle('<', '&', "&amp;");
    ReplaceCharSingle('<', '<', "&lt;");
    assert '>' !in "&lt;" && '"' !in "&lt;" && '\'' !in "&lt;" && '/' !in "&lt;";
  }

  lemma ChainGt()
    ensures ReplaceChain(">") == "&gt;"
  {
    ReplaceCharSingle('>', '&', "&amp;");
    ReplaceCharSingle('>', '<', "&lt;");
    ReplaceCharSingle('>', '>', "&gt;");
    assert '"' !in "&gt;" && '\'' !in "&gt;" && '/' !in "&gt;";
  }

  lemma ChainQuot()
    ensures ReplaceChain("\"") == "&quot;"
  {
    ReplaceCharSingle('"', '&', "&amp;");
    ReplaceCharSingle('"', '<', "&lt;");
    ReplaceCharSingle('"', '>', "&gt;");
    ReplaceCharSingle('"', '"', "&quot;");
    assert '\'' !in "&quot;" && '/' !in "&quot;";
  }

  lemma ChainApos()
    ensures ReplaceChain("'") == "&#x27;"
  {
    ReplaceCharSingle('\'', '&', "&amp;");
    ReplaceCharSingle('\'', '<', "&lt;");
    ReplaceCharSingle('\'', '>', "&gt;");
    ReplaceCharSingle('\'', '"', "&quot;");
    ReplaceCharSingle('\'', '\'', "&#x27;");
    assert '/' !in "&#x27;";
  }

  lemma ChainSlash()
    ensures ReplaceChain("/") == "&#x2F;"
  {
    ReplaceCharSingle('/', '&', "&amp;");
    ReplaceCharSingle('/', '<', "&lt;");
    ReplaceCharSingle('/', '>', "&gt;");
    ReplaceCharSingle('/', '"', "&quot;");
    ReplaceCharSingle('/', '\'', "&#x27;");
    ReplaceCharSingle('/', '/', "&#x2F;");
  }

  lemma ChainPlain(c: char)
    requires !Special(c)
    ensures ReplaceChain([c]) == [c]
  {
  }

  /** On one character the chain yields its entity: no entity produced by one step is rewritten by a later one. */
  lemma ChainSingle(c: char)
    ensures ReplaceChain([c]) == EscapeChar(c)
  {
    if c == '&' {
      ChainAmp();
    } else if c == '<' {
      ChainLt();
    } else if c == '>' {
      ChainGt();
    } else if c == '"' {
      ChainQuot();
    } else if c == '\'' {
      ChainApos();
    } else if c == '/' {
      ChainSlash();
    } else {
      ChainPlain(c);
    }
  }

  /** The chained replacements equal escaping every character independently. */
  lemma {:induction false} ChainIsPerChar(s: string)
    ensures ReplaceChain(s) == EscapeEach(s)
  {
    if s == [] {
    } else {
      assert s == [s[0]] + s[1..];
      ChainAppend([s[0]], s[1..]);
      ChainSingle(s[0]);
      ChainIsPerChar(s[1..]);
    }
  }

  /**
   * For non-blank input, escapeHtml escapes each character on its own, and
   * the result holds no < > " ' / at all.
   */
  lemma EscapeHtmlSpec(content: Option<string>)
    requires !IsBlank(content)
    ensures EscapeHtml(content) == Some(EscapeEach(content.value))
    ensures forall k :: 0 <= k < |EscapeHtml(content).value| ==>
      EscapeHtml(content).value[k] !in {'<', '>', '"', '\'', '/'}
  {
    ChainIsPerChar(content.value);
  }

  /** Reading the six entities back; an '&' that starts no entity stays as it is. */
  function Unescape(s: string): string
    decreases |s|
  {
    if s == [] then []
    else if "&amp;" <= s then "&" + Unescape(s[5..])
    else if "&lt;" <= s then "<" + Unescape(s[4..])
    else if "&gt;" <= s then ">" + Unescape(s[4..])
    else if "&quot;" <= s then "\"" + Unescape(s[6..])
    else if "&#x27;" <= s then "'" + Unescape(s[6..])
    else if "&#x2F;" <= s then "/" + Unescape(s[6..])
    else [s[0]] + Unescape(s[1..])
  }

  /** Reading back one entity, or one plain character, at the front. */
  lemma UnescapeEntity(e: string, c: char, rest: string)
    requires e == EscapeChar(c)
    ensures Unescape(e + rest) == [c] + Unescape(rest)
  {
    var s := e + rest;
    assert s[..|e|] == e;
    assert s[|e|..] == rest;
    if !Special(c) {
      assert s[0] == c;
    } else if c == '<' {
      assert s[1] == 'l';
    } else if c == '>' {
      assert s[1] == 'g';
    } else if c == '"' {
      assert s[1] == 'q';
    } else if c == '\'' {
      assert s[1] == '#' && s[4] == '7';
    } else if c == '/' {
      assert s[1] == '#' && s[4] == 'F';
    }
  }

  /** Escaping loses nothing: reading the entities back gives the original text. */
  lemma {:induction false} UnescapeEscape(s: string)
    ensures Unescape(EscapeEach(s)) == s
  {
    if s != [] {
      UnescapeEntity(EscapeChar(s[0]), s[0], EscapeEach(s[1..]));
      UnescapeEscape(s[1..]);
      assert s == [s[0]] + s[1..];
    }
  }

  /**
   * clean, cleanWithBasicFormat and cleanWithAllowedTags: blank input is
   * returned as it is; otherwise the policy's sanitised text, or the escaped
   * text when the sanitiser throws.
   */
  function CleanWith(policy: Policy, content: Option<string>, sanitize: Sanitizer): (r: Option<string>)
    ensures r.None? <==> content.None?
    ensures IsBlank(content) ==> r == content
    ensures !IsBlank(content) && sanitize(policy, content.value).Some? ==> r == sanitize(policy, content.value)
    ensures !IsBlank(content) && sanitize(policy, content.value).None? ==> r == Some(EscapeEach(content.value))
  {
    if IsBlank(content) then content
    else
      var sanitized := sanitize(policy, content.value);
      if sanitized.Some? then sanitized
      else
        ChainIsPerChar(content.value);
        EscapeHtml(content)
  }

  /** The strict policy's clean. */
  function Clean(content: Option<string>, sanitize: Sanitizer): Option<string>
  {
    CleanWith(Strict, content, sanitize)
  }

  /** The exception the sanitiser throws out of containsXss. */
  datatype SanitizerException = SanitizerException

  /**
   * containsXss: false for blank input; otherwise whether the strict policy
   * changes the text (an exception in the sanitiser propagates).
   */
  function ContainsXss(content: Option<string>, sanitize: Sanitizer): (r: Result<bool, SanitizerException>)
    ensures IsBlank(content) ==> r == Success(false)
    ensures !IsBlank(content) && sanitize(Strict, content.value).Some? ==>
      r == Success(content.value != sanitize(Strict, content.value).value)
    ensures !IsBlank(content) && sanitize(Strict, content.value).None? ==> r.Failure?
  {
    if IsBlank(content) then Success(false)
    else
      var cleaned := sanitize(Strict, content.value);
      if cleaned.None? then Failure(SanitizerException)
      else Success(content.value != cleaned.value)
  }

  /**
   * validateAndClean: null input, trimmed input longer than maxLength, empty
   * trimmed input and input that cleans to "" are rejected (None).
   */
  function ValidateAndClean(content: Option<string>, maxLength: int, sanitize: Sanitizer): (r: Option<string>)
  {
    if content.None? then None
    else
      var trimmed := JavaTrim(content.value);
      if |trimmed| > maxLength then None
      else if trimmed == [] then None
      else
        var cleaned := Clean(Some(trimmed), sanitize);
        if cleaned.value == [] then None else cleaned
  }

  /** The accepted values are exactly the non-empty cleanings of a short enough, non-empty trimmed input. */
  lemma ValidateAndCleanSpec(content: Option<string>, maxLength: int, sanitize: Sanitizer)
    ensures var r := ValidateAndClean(content, maxLength, sanitize);
      && (content.None? ==> r.None?)
      && (content.Some? ==>
            var trimmed := JavaTrim(content.value);
            && (r.Some? <==> |trimmed| <= maxLength && trimmed != [] && Clean(Some(trimmed), sanitize).value != [])
            && (r.Some? ==> r == Clean(Some(trimmed), sanitize) && r.value != []))
  {
  }

  /**
   * A trimmed input that the sanitiser cannot handle comes back escaped,
   * so it never holds a '<'.
   */
  lemma ValidateAndCleanEscapesOnException(content: string, maxLength: int, sanitize: Sanitizer)
    requires var trimmed := JavaTrim(content);
      |trimmed| <= maxLength && !IsBlank(Some(trimmed)) && sanitize(Strict, trimmed).None?
    ensures ValidateAndClean(Some(content), maxLength, sanitize) == Some(EscapeEach(JavaTrim(content)))
    ensures '<' !in ValidateAndClean(Some(content), maxLength, sanitize).value
  {
    var trimmed := JavaTrim(content);
    assert trimmed != [];
    assert Clean(Some(trimmed), sanitize) == Some(EscapeEach(trimmed));
    NoLtEscaped(trimmed);
  }

  lemma NoLtEscaped(s: string)
    ensures '<' !in EscapeEach(s)
  {
    var e := EscapeEach(s);
    assert forall k :: 0 <= k < |e| ==> e[k] != '<';
  }
}
