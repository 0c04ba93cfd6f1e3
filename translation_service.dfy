/**
 * The article translation service: storing the English translation of an
 * article with a bounded retry against a concurrent writer, reading a
 * translation back as a result map, and falling back to the original text
 * whenever the translation call yields nothing usable.
 *
 * The translation table is a map from (article id, language) to its row. The
 * database and the HTTP call are inputs: what goes wrong on each attempt is a
 * `Fault`, and the translation server's answer is a `Reply`.
 */
module TranslationService {
  import opened Common
  import opened Text

  const MAX_RETRIES: nat := 3
  const EN: string := "en"

  datatype Translation = Translation(articleId: int, language: string, title: Option<string>, content: Option<string>,
                                     createTime: int, updateTime: int)

  type Rows = map<(int, string), Translation>

  /**
   * What the last attempt's re-read after a duplicate key meets: the other
   * writer's row, an exception (of the re-read or of its update), or no row
   * at all because that row was deleted again in between.
   */
  datatype Reread = RereadFinds | RereadFails | RereadMisses

  /**
   * What goes wrong on one attempt. `DbError` is any failure of the lookup or
   * the write, which leaves the table as it was. `DuplicateKey` is another
   * writer inserting `racer` between the lookup and the insert; the wait before
   * the next attempt may then be `interrupted`, and on the last attempt the
   * re-read meets `reread`.
   */
  datatype Fault = NoFault | DbError | DuplicateKey(racer: Translation, interrupted: bool, reread: Reread)

  /** The row after updateById of an existing translation with the new text. */
  function Rewritten(t: Translation, title: string, content: string, now: int): Translation
  {
    t.(title := Some(title), content := Some(content), updateTime := now)
  }

  function NewRow(articleId: int, title: string, content: string, now: int): Translation
  {
    Translation(articleId, EN, Some(title), Some(content), now, now)
  }

  /**
   * The outcome of saveOrUpdateTranslation from attempt `attempt` on: whether
   * it reports success, the table it leaves, and how many attempts it made.
   */
  function SaveFrom(rows: Rows, articleId: int, title: string, content: string, now: int, faults: seq<Fault>, attempt: nat): (bool, Rows, nat)
    requires |faults| == MAX_RETRIES && 1 <= attempt <= MAX_RETRIES
    decreases MAX_RETRIES - attempt
  {
    var key := (articleId, EN);
    match faults[attempt - 1]
    case DbError =>
      if attempt == MAX_RETRIES then (false, rows, attempt)
      else SaveFrom(rows, articleId, title, content, now, faults, attempt + 1)
    case NoFault =>
      if key in rows then (true, rows[key := Rewritten(rows[key], title, content, now)], attempt)
      else (true, rows[key := NewRow(articleId, title, content, now)], attempt)
    case DuplicateKey(racer, interrupted, reread) =>
      if key in rows then (true, rows[key := Rewritten(rows[key], title, content, now)], attempt)
      else
        var raced := rows[key := racer];
        if attempt < MAX_RETRIES then
          if interrupted then (false, raced, attempt)
          else SaveFrom(raced, articleId, title, content, now, faults, attempt + 1)
        else
          match reread
          case RereadFinds => (true, raced[key := Rewritten(racer, title, content, now)], attempt)
          case RereadFails => (false, raced, attempt)
          case RereadMisses => (false, rows, attempt)
  }

  /**
   * The table only changes at the article's English row, and at most
   * `MAX_RETRIES` attempts are made; on success that row holds the new title
   * and content.
   */
  lemma {:induction false} SaveFromSpec(rows: Rows, articleId: int, title: string, content: string, now: int, faults: seq<Fault>, attempt: nat)
    requires |faults| == MAX_RETRIES && 1 <= attempt <= MAX_RETRIES
    ensures var (ok, after, made) := SaveFrom(rows, articleId, title, content, now, faults, attempt);
      && attempt <= made <= MAX_RETRIES
      && (forall k :: k != (articleId, EN) ==> (k in after <==> k in rows) && (k in rows ==> after[k] == rows[k]))
      && (ok ==> (articleId, EN) in after && after[(articleId, EN)].title == Some(title) && after[(articleId, EN)].content == Some(content)
                 && after[(articleId, EN)].updateTime == now)
      && ((articleId, EN) in rows ==> (articleId, EN) in after)
    decreases MAX_RETRIES - attempt
  {
    var key := (articleId, EN);
    match faults[attempt - 1]
    case DbError =>
      if attempt < MAX_RETRIES {
        SaveFromSpec(rows, articleId, title, content, now, faults, attempt + 1);
      }
    case NoFault =>
    case DuplicateKey(racer, interrupted, _) =>
      if key !in rows && attempt < MAX_RETRIES && !interrupted {
        SaveFromSpec(rows[key := racer], articleId, title, content, now, faults, attempt + 1);
      }
  }

  /** An existing row is updated in place at the first attempt that reaches the database, and nothing is inserted. */
  lemma ExistingRowUpdated(rows: Rows, articleId: int, title: string, content: string, now: int, faults: seq<Fault>)
    requires |faults| == MAX_RETRIES && (articleId, EN) in rows && faults[0] != DbError
    ensures SaveFrom(rows, articleId, title, content, now, faults, 1)
      == (true, rows[(articleId, EN) := Rewritten(rows[(articleId, EN)], title, content, now)], 1)
  {
  }

  /** Without faults a missing row is inserted on the first attempt. */
  lemma MissingRowInserted(rows: Rows, articleId: int, title: string, content: string, now: int, faults: seq<Fault>)
    requires |faults| == MAX_RETRIES && (articleId, EN) !in rows && faults[0] == NoFault
    ensures SaveFrom(rows, articleId, title, content, now, faults, 1)
      == (true, rows[(articleId, EN) := NewRow(articleId, title, content, now)], 1)
  {
  }

  /** A database error on every attempt reports failure after three attempts and changes nothing. */
  lemma AllAttemptsFail(rows: Rows, articleId: int, title: string, content: string, now: int)
    ensures SaveFrom(rows, articleId, title, content, now, [DbError, DbError, DbError], 1) == (false, rows, MAX_RETRIES)
  {
  }

  /** An interrupted wait after a duplicate key gives up at once, leaving the other writer's row. */
  lemma InterruptGivesUp(rows: Rows, articleId: int, title: string, content: string, now: int, racer: Translation, rest: seq<Fault>)
    requires (articleId, EN) !in rows && |rest| == MAX_RETRIES - 1
    ensures SaveFrom(rows, articleId, title, content, now, [DuplicateKey(racer, true, RereadFinds)] + rest, 1)
      == (false, rows[(articleId, EN) := racer], 1)
  {
  }

  /** A duplicate key on the first attempt is resolved on the second by updating the other writer's row. */
  lemma DuplicateKeyRetriedAsUpdate(rows: Rows, articleId: int, title: string, content: string, now: int, racer: Translation, third: Fault)
    requires (articleId, EN) !in rows
    ensures SaveFrom(rows, articleId, title, content, now, [DuplicateKey(racer, false, RereadFinds), NoFault, third], 1)
      == (true, rows[(articleId, EN) := Rewritten(racer, title, content, now)], 2)
  {
    var faults := [DuplicateKey(racer, false, RereadFinds), NoFault, third];
    var raced := rows[(articleId, EN) := racer];
    assert faults[1] == NoFault;
    assert SaveFrom(raced, articleId, title, content, now, faults, 2)
      == (true, raced[(articleId, EN) := Rewritten(racer, title, content, now)], 2);
    assert raced[(articleId, EN) := Rewritten(racer, title, content, now)] == rows[(articleId, EN) := Rewritten(racer, title, content, now)];
  }

  /**
   * A duplicate key on the last attempt ends the method there: the other
   * writer's row is rewritten when the re-read finds it, and otherwise the
   * method reports failure, with that row left as it was or gone.
   */
  lemma LastDuplicateKeyRereads(rows: Rows, articleId: int, title: string, content: string, now: int,
                                first: Fault, second: Fault, racer: Translation, interrupted: bool, reread: Reread)
    requires (articleId, EN) !in rows
    requires first == DbError && second == DbError
    ensures var (ok, after, made) := SaveFrom(rows, articleId, title, content, now, [first, second, DuplicateKey(racer, interrupted, reread)], 1);
      && made == MAX_RETRIES
      && (ok <==> reread == RereadFinds)
      && after == match reread
        case RereadFinds => rows[(articleId, EN) := Rewritten(racer, title, content, now)]
        case RereadFails => rows[(articleId, EN) := racer]
        case RereadMisses => rows
  {
    var faults := [first, second, DuplicateKey(racer, interrupted, reread)];
    assert faults[0] == DbError && faults[1] == DbError && faults[2] == DuplicateKey(racer, interrupted, reread);
    assert SaveFrom(rows, articleId, title, content, now, faults, 1) == SaveFrom(rows, articleId, title, content, now, faults, 3);
    var raced := rows[(articleId, EN) := racer];
    assert raced[(articleId, EN) := Rewritten(racer, title, content, now)] == rows[(articleId, EN) := Rewritten(racer, title, content, now)];
  }

  class TranslationStore {
    var rows: Rows

    constructor ()
      ensures rows == map[]
    {
      rows := map[];
    }

    /**
     * saveOrUpdateTranslation: up to three attempts to update the article's
     * English row or insert it; `faults[i]` is what goes wrong on attempt i+1.
     */
    method SaveOrUpdateTranslation(articleId: int, title: string, content: string, now: int, faults: seq<Fault>)
      returns (ok: bool, attempts: nat)
      requires |faults| == MAX_RETRIES
      modifies this
      ensures (ok, rows, attempts) == SaveFrom(old(rows), articleId, title, content, now, faults, 1)
    {
      var key := (articleId, EN);
      for attempt := 1 to MAX_RETRIES + 1
        invariant attempt <= MAX_RETRIES
        invariant SaveFrom(rows, articleId, title, content, now, faults, attempt) == SaveFrom(old(rows), articleId, title, content, now, faults, 1)
      {
        attempts := attempt;
        var fault := faults[attempt - 1];
        if fault == DbError {
          if attempt == MAX_RETRIES {
            return false, attempt;
          }
        } else if key in rows {
          rows := rows[key := Rewritten(rows[key], title, content, now)];
          return true, attempt;
        } else if fault == NoFault {
          rows := rows[key := NewRow(articleId, title, content, now)];
          return true, attempt;
        } else {
          ghost var before := rows;
          rows := rows[key := fault.racer];
          if attempt < MAX_RETRIES {
            if fault.interrupted {
              return false, attempt;
            }
          } else if fault.reread == RereadFinds {
            rows := rows[key := Rewritten(rows[key], title, content, now)];
            return true, attempt;
          } else if fault.reread == RereadFails {
            return false, attempt;
          } else {
            // the racer's row is gone again; the last attempt ends the loop with failure
            rows := rows - {key};
            assert rows == before;
            return false, attempt;
          }
        }
      }
      assert false;
    }
  }

  const INVALID_ARGUMENTS: string := "文章ID或语言参数无效"
  const NOT_FOUND_MESSAGE: string := "未找到对应语言的翻译"
  const LOOKUP_FAILED: string := "获取翻译失败: "

  /**
   * getArticleTranslation: the result map. `lookupError` is the message of an
   * exception thrown by the lookup, if any.
   */
  function ArticleTranslation(rows: Rows, articleId: Option<int>, language: Option<string>, lookupError: Option<string>): (r: map<string, string>)
    ensures articleId.None? || language.None? || JavaTrim(language.value) == [] ==> r == map["error" := INVALID_ARGUMENTS]
    ensures r.Keys == {"error"} || "status" in r
    ensures "status" in r && r["status"] == "success" <==>
      articleId.Some? && language.Some? && JavaTrim(language.value) != [] && lookupError.None? && (articleId.value, language.value) in rows
  {
    if articleId.None? || language.None? || JavaTrim(language.value) == [] then map["error" := INVALID_ARGUMENTS]
    else if lookupError.Some? then map["error" := LOOKUP_FAILED + lookupError.value, "status" := "error"]
    else
      var key := (articleId.value, language.value);
      if key in rows then
        var t := rows[key];
        map["title" := OrEmpty(t.title), "content" := OrEmpty(t.content), "language" := t.language, "status" := "success"]
      else map["error" := NOT_FOUND_MESSAGE, "status" := "not_found"]
  }

  function OrEmpty(s: Option<string>): string
  {
    if s.Some? then s.value else ""
  }

  /** A stored translation reads back with its title and content, a missing text read as "". */
  lemma SavedTranslationReadsBack(rows: Rows, articleId: int)
    requires (articleId, EN) in rows
    ensures var r := ArticleTranslation(rows, Some(articleId), Some(EN), None);
      r["status"] == "success" && r["title"] == OrEmpty(rows[(articleId, EN)].title) && r["content"] == OrEmpty(rows[(articleId, EN)].content)
  {
    assert JavaTrim(EN) != [] by {
      assert EN[0] > ' ';
    }
  }

  /** The translation server's answer: an HTTP status other than 200 or a thrown exception both count as `NoReply`. */
  datatype Reply = NoReply | Reply(code: Option<int>, translated: Option<string>)

  predicate Blank(s: Option<string>)
  {
    s.None? || JavaTrim(s.value) == []
  }

  /** translateText: blank text as it is; otherwise a non-blank translation from a code-200 reply, else the original. */
  function TranslateText(text: Option<string>, reply: Reply): (r: Option<string>)
    ensures Blank(text) ==> r == text
    ensures !Blank(text) ==> !Blank(r)
    ensures r == text || (reply.Reply? && reply.code == Some(200) && r == reply.translated)
  {
    if Blank(text) then text
    else if reply.Reply? && reply.code == Some(200) && !Blank(reply.translated) then reply.translated
    else text
  }

  /** translateLongText: the translation of the whole text, or the original when that is blank. */
  function TranslateLongText(content: Option<string>, reply: Reply): (r: Option<string>)
  {
    if Blank(content) then content
    else
      var t := TranslateText(content, reply);
      if !Blank(t) then t else content
  }

  /** Translating long text adds nothing over translating it in one piece: the fallback never fires twice. */
  lemma LongTextIsOnePiece(content: Option<string>, reply: Reply)
    ensures TranslateLongText(content, reply) == TranslateText(content, reply)
  {
  }

  /** A usable translation replaces the text, and anything else leaves the original. */
  lemma TranslationFallback(text: string, reply: Reply)
    requires JavaTrim(text) != []
    ensures reply.Reply? && reply.code == Some(200) && !Blank(reply.translated) ==> TranslateText(Some(text), reply) == reply.translated
    ensures reply.NoReply? || reply.code != Some(200) || Blank(reply.translated) ==> TranslateText(Some(text), reply) == Some(text)
  {
  }
}
