/**
 * The upload limiter: every upload request by a logged-in user other than
 * the administrator bumps a per-user and a per-IP counter, and the request is
 * refused once either counter had already reached the limit.
 *
 * The counters live in the shared cache under keys built from a user-id
 * prefix and an IP prefix; the model keeps them as two maps. The logged-in
 * users by token, the administrator's id, the client IP and the limit
 * (SAVE_MAX_COUNT) are inputs; the counters' cache expiry is not modelled.
 */
module FileFilter {
  import opened Common
  import opened Text

  const UPLOAD_PATTERN: string := "/resource/upload"

  datatype User = User(id: int)

  /** The non-empty '/'-separated segments of a path, as the Ant path matcher tokenises it. */
  function Segments(s: string): seq<string>
    decreases |s|
  {
    var i := IndexOfChar(s, '/');
    if i < 0 then (if s == [] then [] else [s])
    else (if i == 0 then [] else [s[..i]]) + Segments(s[i + 1..])
  }

  /** No segment is empty: consecutive, leading and trailing separators produce none. */
  lemma {:induction false} SegmentsNonEmpty(s: string)
    ensures forall j :: 0 <= j < |Segments(s)| ==> Segments(s)[j] != []
    decreases |s|
  {
    var i := IndexOfChar(s, '/');
    if i >= 0 {
      SegmentsNonEmpty(s[i + 1..]);
    }
  }

  /** No segment holds a '/'. */
  lemma {:induction false} SegmentsHaveNoSlash(s: string)
    ensures forall j :: 0 <= j < |Segments(s)| ==> '/' !in Segments(s)[j]
    decreases |s|
  {
    var i := IndexOfChar(s, '/');
    if i >= 0 {
      SegmentsHaveNoSlash(s[i + 1..]);
      assert forall k :: 0 <= k < i ==> s[..i][k] == s[k];
    }
  }

  /**
   * AntPathMatcher.match for a pattern without wildcards: both or neither
   * start with '/', the segments agree, and both or neither end with '/'.
   */
  predicate LiteralPathMatch(pattern: string, path: string)
  {
    StartsWith(pattern, "/") == StartsWith(path, "/")
    && Segments(pattern) == Segments(path)
    && EndsWith(pattern, "/") == EndsWith(path, "/")
  }

  /** A leading separator adds no segment. */
  lemma SegmentsAfterSlash(rest: string)
    ensures Segments("/" + rest) == Segments(rest)
  {
    assert ("/" + rest)[0] == '/';
    assert ("/" + rest)[1..] == rest;
  }

  /** A word without separators followed by a separator is one segment. */
  lemma SegmentsOfWord(a: string, rest: string)
    requires a != [] && '/' !in a
    ensures Segments(a + "/" + rest) == [a] + Segments(rest)
    ensures Segments(a) == [a]
  {
    var s := a + "/" + rest;
    assert s[|a|] == '/';
    assert forall k :: 0 <= k < |a| ==> s[k] == a[k];
    var i := IndexOfChar(s, '/');
    assert i == |a|;
    assert s[..i] == a;
    assert s[i + 1..] == rest;
  }

  /** A path of the form /a/b has the two segments a and b. */
  lemma TwoSegments(a: string, b: string)
    requires a != [] && '/' !in a && b != [] && '/' !in b
    ensures Segments("/" + (a + "/" + b)) == [a, b]
  {
    SegmentsAfterSlash(a + "/" + b);
    SegmentsOfWord(a, b);
    SegmentsOfWord(b, "");
  }

  lemma UploadPatternSpelled()
    ensures UPLOAD_PATTERN == "/" + ("resource" + "/" + "upload")
  {
  }

  lemma UploadPatternSegments()
    ensures Segments(UPLOAD_PATTERN) == ["resource", "upload"]
  {
    UploadPatternSpelled();
    TwoSegments("resource", "upload");
  }

  /** The request paths the limiter applies to, with the pattern's segments worked out. */
  predicate IsUploadPath(uri: string)
  {
    StartsWith(uri, "/") && Segments(uri) == ["resource", "upload"] && !EndsWith(uri, "/")
  }

  /** IsUploadPath is exactly the Ant match against the upload pattern. */
  lemma UploadPathIsAntMatch(uri: string)
    ensures IsUploadPath(uri) <==> LiteralPathMatch(UPLOAD_PATTERN, uri)
  {
    UploadPatternSegments();
    assert StartsWith(UPLOAD_PATTERN, "/");
    assert !EndsWith(UPLOAD_PATTERN, "/");
  }

  /** The upload path itself matches. */
  lemma UploadPatternIsUploadPath()
    ensures IsUploadPath(UPLOAD_PATTERN)
  {
    UploadPathIsAntMatch(UPLOAD_PATTERN);
  }

  /** A trailing slash does not match. */
  lemma TrailingSlashIsNotUploadPath()
    ensures !IsUploadPath(UPLOAD_PATTERN + "/")
  {
    assert (UPLOAD_PATTERN + "/")[|UPLOAD_PATTERN|] == '/';
  }

  lemma UploadsSpelled()
    ensures "/resource/uploads" == "/" + ("resource" + "/" + "uploads")
  {
  }

  /** A different last segment does not match. */
  lemma OtherSegmentIsNotUploadPath()
    ensures !IsUploadPath("/resource/uploads")
  {
    UploadsSpelled();
    TwoSegments("resource", "uploads");
  }

  /** A counter that does not exist yet reads as 0. */
  function CountOf<K>(counts: map<K, int>, k: K): int
  {
    if k in counts then counts[k] else 0
  }

  /** The limiter's state: the two counter maps. */
  datatype Counters = Counters(users: map<int, int>, ips: map<string, int>)

  /** A request as the limiter sees it. */
  datatype Request = Request(uri: string, token: Option<string>, ip: string)

  /** The user a request's token belongs to, if any. */
  function RequestUser(req: Request, sessions: map<string, User>): Option<User>
  {
    if HasText(req.token) && req.token.value in sessions then Some(sessions[req.token.value]) else None
  }

  /**
   * doFilterFile on a state: whether the request is blocked, and the counters
   * after it. Each counter is read, then incremented, whether or not the
   * request is blocked.
   */
  function FilterRequest(c: Counters, req: Request, sessions: map<string, User>, adminId: int, saveMaxCount: int): (bool, Counters)
  {
    if !IsUploadPath(req.uri) then (false, c)
    else
      var user := RequestUser(req, sessions);
      if user.None? then (true, c)
      else if user.value.id == adminId then (false, c)
      else
        var userCount := CountOf(c.users, user.value.id);
        var ipCount := CountOf(c.ips, req.ip);
        (userCount >= saveMaxCount || ipCount >= saveMaxCount,
         Counters(c.users[user.value.id := userCount + 1], c.ips[req.ip := ipCount + 1]))
  }

  /**
   * Requests elsewhere pass untouched; uploads without a known user are
   * blocked untouched; the administrator passes untouched; any other upload
   * adds exactly one to its user's and its IP's counter, and is blocked iff
   * either counter stood at the limit or more before.
   */
  lemma FilterSpec(c: Counters, req: Request, sessions: map<string, User>, adminId: int, saveMaxCount: int)
    ensures var (blocked, after) := FilterRequest(c, req, sessions, adminId, saveMaxCount);
      && (!IsUploadPath(req.uri) ==> !blocked && after == c)
      && (IsUploadPath(req.uri) && RequestUser(req, sessions).None? ==> blocked && after == c)
      && (IsUploadPath(req.uri) && RequestUser(req, sessions) == Some(User(adminId)) ==> !blocked && after == c)
      && (IsUploadPath(req.uri) && RequestUser(req, sessions).Some? && RequestUser(req, sessions).value.id != adminId ==>
            var id := RequestUser(req, sessions).value.id;
            && CountOf(after.users, id) == CountOf(c.users, id) + 1
            && CountOf(after.ips, req.ip) == CountOf(c.ips, req.ip) + 1
            && (forall u :: u != id ==> CountOf(after.users, u) == CountOf(c.users, u))
            && (forall ip :: ip != req.ip ==> CountOf(after.ips, ip) == CountOf(c.ips, ip))
            && (blocked <==> CountOf(c.users, id) >= saveMaxCount || CountOf(c.ips, req.ip) >= saveMaxCount))
  {
  }

  /** `n` uploads in a row by one user from one IP, starting from counters `c`; the two results are the last verdict and the counters. */
  function Uploads(c: Counters, req: Request, sessions: map<string, User>, adminId: int, saveMaxCount: int, n: nat): (bool, Counters)
    decreases n
  {
    if n == 0 then (false, c)
    else FilterRequest(Uploads(c, req, sessions, adminId, saveMaxCount, n - 1).1, req, sessions, adminId, saveMaxCount)
  }

  /**
   * From fresh counters, the n-th upload of an ordinary user is blocked
   * exactly when n exceeds the limit, and both counters then stand at n.
   */
  lemma {:induction false} RepeatedUploads(req: Request, sessions: map<string, User>, adminId: int, saveMaxCount: int, n: nat)
    requires IsUploadPath(req.uri)
    requires RequestUser(req, sessions).Some? && RequestUser(req, sessions).value.id != adminId
    requires n >= 1
    ensures var (blocked, after) := Uploads(Counters(map[], map[]), req, sessions, adminId, saveMaxCount, n);
      && CountOf(after.users, RequestUser(req, sessions).value.id) == n
      && CountOf(after.ips, req.ip) == n
      && (blocked <==> n - 1 >= saveMaxCount)
  {
    if n > 1 {
      RepeatedUploads(req, sessions, adminId, saveMaxCount, n - 1);
    }
  }

  /** The limiter, holding the counters in place. */
  class UploadLimiter {
    var counters: Counters

    constructor ()
      ensures counters == Counters(map[], map[])
    {
      counters := Counters(map[], map[]);
    }

    /** doFilterFile: true means the request is refused. */
    method DoFilterFile(req: Request, sessions: map<string, User>, adminId: int, saveMaxCount: int) returns (blocked: bool)
      modifies this
      ensures (blocked, counters) == FilterRequest(old(counters), req, sessions, adminId, saveMaxCount)
    {
      if !IsUploadPath(req.uri) {
        return false;
      }
      if !HasText(req.token) || req.token.value !in sessions {
        return true;
      }
      var user := sessions[req.token.value];
      if user.id == adminId {
        return false;
      }
      var userCount := CountOf(counters.users, user.id);
      counters := counters.(users := counters.users[user.id := userCount + 1]);
      var ipCount := CountOf(counters.ips, req.ip);
      counters := counters.(ips := counters.ips[req.ip := ipCount + 1]);
      blocked := userCount >= saveMaxCount || ipCount >= saveMaxCount;
    }
  }
}
