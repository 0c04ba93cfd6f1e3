/**
 * Helpers of the article service: the search snippet around a keyword, the
 * plain-text truncation of a translated article, the regular-expression
 * search syntax, the password rules of hidden articles, and the in-memory
 * registry of asynchronous save tasks.
 *
 * Lengths and positions count the characters of a Dafny string, which are
 * Unicode scalar values; Java's String counts UTF-16 code units, so the two
 * agree only on text inside the Basic Multilingual Plane. The clock is a
 * parameter `now` in milliseconds.
 */
module ArticleService {
  import opened Common
  import opened Text

  /** "..." when `b` holds, the empty string otherwise. */
  function Dots(b: bool): string
  {
    if b then "..." else ""
  }

  /**
   * The window [start, end) of the content that the snippet shows: it tries to
   * centre the keyword found at `ki`, then slides back to keep the full width.
   * The halving divides as Java's int division does, toward zero.
   */
  function SnippetWindow(len: nat, ki: nat, kLen: nat, maxLength: nat): (w: (nat, nat))
    requires ki + kLen <= len && maxLength < len
    ensures w.0 <= w.1 <= len && w.1 - w.0 == maxLength
    ensures kLen <= maxLength ==> w.0 <= ki && ki + kLen <= w.1
  {
    var d := maxLength - kLen;
    var half := if d >= 0 then d / 2 else -((-d) / 2);
    var start0 := Max(0, ki - half);
    var end := Min(len, start0 + maxLength);
    var start := if end - start0 < maxLength && start0 > 0 then Max(0, end - maxLength) else start0;
    (start, end)
  }

  /**
   * getContentSnippetWithKeyword: a short (or absent) content is returned as
   * it is; otherwise a window of `maxLength` characters around the first
   * case-insensitive occurrence of the keyword, or the start of the content
   * when there is none, with "..." on the sides where content was cut off.
   */
  function ContentSnippet(content: Option<string>, keyword: Option<string>, maxLength: nat): (r: Option<string>)
    ensures r.None? <==> content.None?
    ensures content.Some? && |content.value| <= maxLength ==> r == content
    ensures content.Some? && |content.value| > maxLength ==> maxLength + 3 <= |r.value| <= maxLength + 6
  {
    if content.None? || keyword.None? || |content.value| <= maxLength then
      if content.Some? && |content.value| > maxLength then Some(content.value[..maxLength] + "...") else content
    else
      var c := content.value;
      var ki := IndexOf(Lower(c), Lower(keyword.value));
      if ki == -1 then Some(c[..maxLength] + "...")
      else
        var w := SnippetWindow(|c|, ki, |keyword.value|, maxLength);
        Some(Dots(w.0 > 0) + c[w.0..w.1] + Dots(w.1 < |c|))
  }

  /** Without a keyword, or when it does not occur, the snippet is the first `maxLength` characters and "...". */
  lemma SnippetWithoutKeyword(c: string, keyword: Option<string>, maxLength: nat)
    requires |c| > maxLength
    requires keyword.None? || IndexOf(Lower(c), Lower(keyword.value)) == -1
    ensures ContentSnippet(Some(c), keyword, maxLength) == Some(c[..maxLength] + "...")
  {
  }

  /**
   * When the keyword occurs and fits, the snippet is a window of exactly
   * `maxLength` characters holding the first occurrence, "..." marks each
   * side where content was cut, and nothing else is added.
   */
  lemma SnippetKeepsKeyword(c: string, k: string, maxLength: nat)
    requires |c| > maxLength && |k| <= maxLength
    requires IndexOf(Lower(c), Lower(k)) >= 0
    ensures var ki := IndexOf(Lower(c), Lower(k));
      var w := SnippetWindow(|c|, ki, |k|, maxLength);
      && OccursAt(Lower(c), Lower(k), ki)
      && w.0 <= ki && ki + |k| <= w.1 && w.1 - w.0 == maxLength
      && ContentSnippet(Some(c), Some(k), maxLength) == Some(Dots(w.0 > 0) + c[w.0..w.1] + Dots(w.1 < |c|))
      && (w.0 == 0 ==> StartsWith(c, c[w.0..w.1]))
      && (w.1 == |c| ==> EndsWith(c, c[w.0..w.1]))
  {
    var ki := IndexOf(Lower(c), Lower(k));
    assert OccursAt(Lower(c), Lower(k), ki);
    assert ki + |k| <= |c|;
    var w := SnippetWindow(|c|, ki, |k|, maxLength);
    assert ContentSnippet(Some(c), Some(k), maxLength) == Some(Dots(w.0 > 0) + c[w.0..w.1] + Dots(w.1 < |c|));
    if w.0 == 0 {
      assert c[w.0..w.1] == c[..w.1];
    }
    if w.1 == |c| {
      assert c[w.0..w.1] == c[|c| - |c[w.0..w.1]|..];
    }
  }

  /**
   * The `replaceAll("<[^>]*>", "")` of the content: each '<' that has a '>'
   * somewhere after it starts a tag running to the first such '>', and the
   * tag is dropped; a '<' with no '>' after it is kept.
   */
  function StripTags(s: string): (r: string)
    ensures |r| <= |s|
    ensures '<' !in s ==> r == s
    decreases |s|
  {
    if s == [] then []
    else
      var close := IndexOfChar(s, '>');
      if s[0] == '<' && close > 0 then StripTags(s[close + 1..])
      else [s[0]] + StripTags(s[1..])
  }

  /** Stripping adds no character. */
  lemma {:induction false} StripTagsSubset(s: string, c: char)
    ensures c in StripTags(s) ==> c in s
    decreases |s|
  {
    if s != [] {
      var close := IndexOfChar(s, '>');
      if s[0] == '<' && close > 0 {
        StripTagsSubset(s[close + 1..], c);
      } else {
        StripTagsSubset(s[1..], c);
      }
    }
  }

  /** No '<' of `t` has a '>' after it. */
  predicate NoOpenTag(t: string)
  {
    forall i, j :: 0 <= i < j < |t| && t[i] == '<' ==> t[j] != '>'
  }

  /** Putting a character before a text without open tags makes none, unless it is a '<' with a '>' after it. */
  lemma NoOpenTagCons(c: char, rest: string)
    requires NoOpenTag(rest)
    requires c == '<' ==> '>' !in rest
    ensures NoOpenTag([c] + rest)
  {
    var r := [c] + rest;
    forall i, j | 0 <= i < j < |r| && r[i] == '<' ensures r[j] != '>' {
      assert r[j] == rest[j - 1];
      if i > 0 {
        assert r[i] == rest[i - 1];
      }
    }
  }

  /** No tag is left: no '<' of the result has a '>' after it. */
  lemma {:induction false} StripTagsNoTag(s: string)
    ensures NoOpenTag(StripTags(s))
    decreases |s|
  {
    if s != [] {
      var close := IndexOfChar(s, '>');
      if s[0] == '<' && close > 0 {
        StripTagsNoTag(s[close + 1..]);
      } else {
        assert StripTags(s) == [s[0]] + StripTags(s[1..]);
        StripTagsNoTag(s[1..]);
        if s[0] == '<' {
          assert close < 0;
          forall k | 0 <= k < |s[1..]| ensures s[1..][k] != '>' {
            assert s[1..][k] == s[k + 1];
          }
          StripTagsSubset(s[1..], '>');
        }
        NoOpenTagCons(s[0], StripTags(s[1..]));
      }
    }
  }

  /** A tag, from '<' to the first '>', is dropped. */
  lemma StripTagsDropsTag(tag: string, rest: string)
    requires '>' !in tag
    ensures StripTags("<" + tag + ">" + rest) == StripTags(rest)
  {
    var s := "<" + tag + ">" + rest;
    var n := |tag| + 1;
    assert s[n] == '>';
    assert forall k :: 1 <= k < n ==> s[k] == tag[k - 1];
    assert IndexOfChar(s, '>') == n;
    assert s[n + 1..] == rest;
  }

  /** A character outside a tag is kept. */
  lemma StripTagsKeepsText(c: char, rest: string)
    requires c != '<'
    ensures StripTags([c] + rest) == [c] + StripTags(rest)
  {
    assert ([c] + rest)[1..] == rest;
  }

  /** A '<' that is never closed stays. */
  lemma StripTagsUnclosed()
    ensures StripTags("a<b") == "a<b"
  {
    assert "a<b"[1..] == "<b";
    assert "<b"[1..] == "b";
  }

  /** The marks after which truncateContent prefers to cut. */
  predicate SentenceMark(c: char)
  {
    c == '。' || c == '！' || c == '？' || c == '.'
  }

  /** The last position of a sentence mark in `t`, or -1. */
  function LastSentenceEnd(t: string): (r: int)
    ensures -1 <= r < |t|
    ensures r >= 0 ==> SentenceMark(t[r])
    ensures forall k :: r < k < |t| ==> !SentenceMark(t[k])
  {
    Max(Max(LastIndexOfChar(t, '。'), LastIndexOfChar(t, '！')),
        Max(LastIndexOfChar(t, '？'), LastIndexOfChar(t, '.')))
  }

  /**
   * The text truncateContent keeps of a plain text longer than `maxLength`:
   * its first `maxLength` characters, cut back to just after the last
   * sentence mark among them when that mark lies beyond 70% of `maxLength`.
   */
  function KeptText(plain: string, maxLength: nat): (p: string)
    requires |plain| > maxLength
    ensures StartsWith(plain, p) && |p| <= maxLength
    ensures |p| < maxLength ==> |p| >= 1 && SentenceMark(p[|p| - 1]) && 10 * (|p| - 1) > 7 * maxLength
    ensures forall k :: |p| <= k < maxLength ==> !SentenceMark(plain[k])
    ensures (forall k :: 0 <= k < maxLength && 10 * k > 7 * maxLength ==> !SentenceMark(plain[k])) ==> p == plain[..maxLength]
  {
    var truncated := plain[..maxLength];
    var lastEnd := LastSentenceEnd(truncated);
    assert forall k :: 0 <= k < maxLength ==> truncated[k] == plain[k];
    if 10 * lastEnd > 7 * maxLength then plain[..lastEnd + 1] else truncated
  }

  /**
   * truncateContent: content whose text (tags removed) fits is returned as it
   * is; otherwise the kept text followed by "...".
   */
  function TruncateContent(content: Option<string>, maxLength: nat): (r: Option<string>)
    ensures r.None? <==> content.None?
    ensures content.Some? && (|content.value| <= maxLength || |StripTags(content.value)| <= maxLength) ==> r == content
    ensures content.Some? && |content.value| > maxLength && |StripTags(content.value)| > maxLength ==>
      |r.value| >= 3 && EndsWith(r.value, "...") && r.value[..|r.value| - 3] == KeptText(StripTags(content.value), maxLength)
  {
    if content.None? || |content.value| <= maxLength then content
    else
      var plain := StripTags(content.value);
      if |plain| <= maxLength then content
      else
        var kept := KeptText(plain, maxLength);
        assert (kept + "...")[..|kept + "..."| - 3] == kept;
        Some(kept + "...")
  }

  /** A search string of the form /pattern/ (longer than two characters) searches by that pattern. */
  predicate IsRegexSearch(s: string)
  {
    StartsWith(s, "/") && EndsWith(s, "/") && |s| > 2
  }

  /** The text actually searched for: the pattern between the slashes, or the whole string. */
  function SearchText(s: string): (r: string)
  {
    if IsRegexSearch(s) then s[1..|s| - 1] else s
  }

  /** Wrapping any non-empty pattern in slashes makes a regex search for exactly that pattern. */
  lemma RegexSearchRoundTrip(pattern: string)
    requires |pattern| >= 1
    ensures IsRegexSearch("/" + pattern + "/")
    ensures SearchText("/" + pattern + "/") == pattern
  {
    var s := "/" + pattern + "/";
    assert s[1..|s| - 1] == pattern;
  }

  /** A search string is a regex search exactly when it is a non-empty pattern wrapped in slashes. */
  lemma RegexSearchShape(s: string)
    ensures IsRegexSearch(s) <==> |s| >= 3 && s == "/" + SearchText(s) + "/"
    ensures !IsRegexSearch(s) ==> SearchText(s) == s
  {
    if IsRegexSearch(s) {
      assert s == [s[0]] + s[1..|s| - 1] + [s[|s| - 1]];
    }
  }

  /** Saving or updating an article fails when it is hidden (viewStatus false) and no password has text. */
  predicate SaveRejected(viewStatus: Option<bool>, password: Option<string>)
  {
    viewStatus == Some(false) && !HasText(password)
  }

  /** The password an accepted save stores: only a hidden article keeps one. */
  function StoredPassword(viewStatus: Option<bool>, password: Option<string>): Option<string>
  {
    if viewStatus == Some(false) && HasText(password) then password else None
  }

  /** Reading an article: a visible one always, a hidden one only with a password equal to the stored one. */
  predicate ReadPermitted(viewStatus: bool, stored: Option<string>, given: Option<string>)
  {
    viewStatus || (HasText(given) && stored.Some? && given.value == stored.value)
  }

  /**
   * A hidden article that was saved can be read with exactly the password
   * given when saving it, and a save that would leave a hidden article
   * without one is refused.
   */
  lemma HiddenArticlePassword(password: Option<string>, given: Option<string>)
    ensures SaveRejected(Some(false), password) <==> StoredPassword(Some(false), password).None?
    ensures !SaveRejected(Some(false), password) ==>
      (ReadPermitted(false, StoredPassword(Some(false), password), given) <==> given == password)
    ensures ReadPermitted(true, None, given)
  {
  }

  /** A visible or unspecified article stores no password. */
  lemma VisibleArticleStoresNoPassword(viewStatus: Option<bool>, password: Option<string>)
    requires viewStatus != Some(false)
    ensures !SaveRejected(viewStatus, password)
    ensures StoredPassword(viewStatus, password) == None
  {
  }

  const PROCESSING: string := "processing"
  const SUCCESS: string := "success"
  const FAILED: string := "failed"
  /** Finished tasks are dropped once their last update is more than five minutes old. */
  const SAVE_STATUS_EXPIRE: int := 5 * 60 * 1000
  const TASK_MISSING: string := "任务不存在或已过期"
  const TASK_EXPIRED: string := "任务已过期"

  datatype SaveStatus = SaveStatus(taskId: string, status: string, message: string, articleId: Option<int>, lastUpdateTime: int)

  /** The registry after updateSaveStatus: an existing task gets the new values, an unknown id changes nothing. */
  function StatusUpdated(tasks: map<string, SaveStatus>, taskId: string, status: string, message: string, articleId: Option<int>, now: int): map<string, SaveStatus>
  {
    if taskId in tasks
    then tasks[taskId := tasks[taskId].(status := status, message := message, articleId := articleId, lastUpdateTime := now)]
    else tasks
  }

  predicate Finished(s: SaveStatus)
  {
    s.status == SUCCESS || s.status == FAILED
  }

  predicate Expired(s: SaveStatus, now: int)
  {
    Finished(s) && now - s.lastUpdateTime > SAVE_STATUS_EXPIRE
  }

  /** What getArticleSaveStatus answers and the registry it leaves behind. */
  function StatusLookup(tasks: map<string, SaveStatus>, taskId: string, now: int): (Result<SaveStatus, string>, map<string, SaveStatus>)
  {
    if taskId !in tasks then (Failure(TASK_MISSING), tasks)
    else if Expired(tasks[taskId], now) then (Failure(TASK_EXPIRED), tasks - {taskId})
    else (Success(tasks[taskId]), tasks)
  }

  /** updateSaveStatus never adds a task, and a known task ends up holding exactly the new values. */
  lemma UpdateNeverInserts(tasks: map<string, SaveStatus>, taskId: string, status: string, message: string, articleId: Option<int>, now: int)
    ensures StatusUpdated(tasks, taskId, status, message, articleId, now).Keys == tasks.Keys
    ensures taskId in tasks ==>
      var s := StatusUpdated(tasks, taskId, status, message, articleId, now)[taskId];
      s.taskId == tasks[taskId].taskId && s.status == status && s.message == message && s.articleId == articleId && s.lastUpdateTime == now
  {
  }

  /**
   * A lookup fails exactly for unknown ids and expired finished tasks, removes
   * only an expired task, and otherwise returns the stored status unchanged.
   */
  lemma LookupOutcome(tasks: map<string, SaveStatus>, taskId: string, now: int)
    ensures StatusLookup(tasks, taskId, now).0.Failure? <==> taskId !in tasks || Expired(tasks[taskId], now)
    ensures StatusLookup(tasks, taskId, now).0.Success? ==> StatusLookup(tasks, taskId, now).0.value == tasks[taskId]
    ensures StatusLookup(tasks, taskId, now).1 == if taskId in tasks && Expired(tasks[taskId], now) then tasks - {taskId} else tasks
  {
  }

  /** A task still processing never expires, however old its last update. */
  lemma ProcessingNeverExpires(tasks: map<string, SaveStatus>, taskId: string, now: int)
    requires taskId in tasks && tasks[taskId].status == PROCESSING
    ensures StatusLookup(tasks, taskId, now) == (Success(tasks[taskId]), tasks)
  {
  }

  /** A status just recorded for a known task is what the next lookup within five minutes reports. */
  lemma UpdateThenLookup(tasks: map<string, SaveStatus>, taskId: string, status: string, message: string, articleId: Option<int>, now: int, later: int)
    requires taskId in tasks && later - now <= SAVE_STATUS_EXPIRE
    ensures var after := StatusUpdated(tasks, taskId, status, message, articleId, now);
      StatusLookup(after, taskId, later) == (Success(after[taskId]), after)
      && after[taskId].status == status
  {
  }

  /** The static ARTICLE_SAVE_STATUS map of the service. */
  class SaveStatusRegistry {
    var tasks: map<string, SaveStatus>

    constructor ()
      ensures tasks == map[]
    {
      tasks := map[];
    }

    /** saveArticleAsync / updateArticleAsync: a new task starts as processing, stamped `now`. */
    method Register(taskId: string, message: string, articleId: Option<int>, now: int)
      modifies this
      ensures tasks == old(tasks)[taskId := SaveStatus(taskId, PROCESSING, message, articleId, now)]
    {
      tasks := tasks[taskId := SaveStatus(taskId, PROCESSING, message, articleId, now)];
    }

    method UpdateSaveStatus(taskId: string, status: string, message: string, articleId: Option<int>, now: int)
      modifies this
      ensures tasks == StatusUpdated(old(tasks), taskId, status, message, articleId, now)
    {
      if taskId in tasks {
        var s := tasks[taskId];
        tasks := tasks[taskId := s.(status := status, message := message, articleId := articleId, lastUpdateTime := now)];
      }
    }

    method GetArticleSaveStatus(taskId: string, now: int) returns (r: Result<SaveStatus, string>)
      modifies this
      ensures (r, tasks) == StatusLookup(old(tasks), taskId, now)
    {
      if taskId !in tasks {
        return Failure(TASK_MISSING);
      }
      var status := tasks[taskId];
      if (status.status == SUCCESS || status.status == FAILED) && now - status.lastUpdateTime > SAVE_STATUS_EXPIRE {
        tasks := tasks - {taskId};
        return Failure(TASK_EXPIRED);
      }
      r := Success(status);
    }
  }
}
