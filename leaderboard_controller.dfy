/**
 * The two leaderboard handlers (my-express-api/src/controllers/leaderboardController.ts).
 *
 * `getLeaderboard` is the pure pipeline `Query`: filter a copy of the entries by game, sort
 * it by score, descending, with the stable `Array.prototype.sort` of ECMAScript 2019
 * (section 22.1.3.27 of ECMA-262, 10th edition), and keep the prefix that
 * `slice(0, limit)` selects. `submitScore` validates the body, appends one entry to the
 * store and writes the store back.
 */
module LeaderboardController {

  import opened Wrappers
  import opened GameIds
  import opened LeaderboardTypes
  import opened Storage

  // ---------------------------------------------------------------------------------
  // The limit rule: `Math.min(Number(req.query.limit) || 10, 50)`.
  // `raw` is `Number(req.query.limit)`; None stands for NaN (a missing or non-numeric
  // parameter).

  const DEFAULT_LIMIT := 10
  const MAX_LIMIT := 50

  function EffectiveLimit(raw: Option<int>): (limit: int)
    ensures raw.None? || raw == Some(0) ==> limit == DEFAULT_LIMIT
    ensures limit <= MAX_LIMIT && limit != 0
    ensures raw.Some? && 1 <= raw.value <= MAX_LIMIT ==> limit == raw.value
    ensures raw.Some? && raw.value > MAX_LIMIT ==> limit == MAX_LIMIT
    ensures raw.Some? && raw.value < 0 ==> limit == raw.value
  {
    var n := if raw.None? || raw.value == 0 then DEFAULT_LIMIT else raw.value;
    if n < MAX_LIMIT then n else MAX_LIMIT
  }

  /** The end index `Array.prototype.slice(0, end)` uses on an array of length `len`
      (section 22.1.3.25 of ECMA-262): a negative end counts back from the end. */
  function SliceEnd(len: nat, end: int): (k: nat)
    ensures k <= len
    ensures end >= 0 ==> k == if end < len then end else len
    ensures end < 0 ==> k == if len + end > 0 then len + end else 0
  {
    if end < 0 then (if len + end > 0 then len + end else 0)
    else if end < len then end else len
  }

  // ---------------------------------------------------------------------------------
  // Filtering: `entries.filter((e) => e.game === game)`, applied only when `game` is truthy.

  /** Keeps exactly the entries of game `g`: each as often as it is stored, and no other. */
  function FilterGame(s: seq<Entry>, g: string): (r: seq<Entry>)
    ensures forall e :: multiset(r)[e] == if Name(e.game) == g then multiset(s)[e] else 0
    ensures forall e :: e in r ==> Name(e.game) == g
    ensures multiset(r) <= multiset(s)
    ensures |r| <= |s|
  {
    if s == [] then []
    else
      assert s == [s[0]] + s[1..];
      if Name(s[0].game) == g then [s[0]] + FilterGame(s[1..], g) else FilterGame(s[1..], g)
  }

  /** No entry is of a game whose name is unknown. */
  lemma {:induction false} FilterUnknownGame(s: seq<Entry>, g: string)
    requires FromName(g).None?
    ensures FilterGame(s, g) == []
  {
    if s != [] {
      assert Name(s[0].game) != g;
      FilterUnknownGame(s[1..], g);
    }
  }

  /** Whether a stored entry is one the query asks about: every entry when no game (or the
      empty string) is given, otherwise the entries of that game. */
  predicate Matches(e: Entry, game: Option<string>) {
    game.None? || game.value == "" || Name(e.game) == game.value
  }

  /** How many stored entries the query asks about. */
  function MatchCount(entries: seq<Entry>, game: Option<string>): nat {
    if entries == [] then 0
    else (if Matches(entries[0], game) then 1 else 0) + MatchCount(entries[1..], game)
  }

  /** `if (game) entries = entries.filter(...)`: no parameter and the empty string filter
      nothing. The copy holds every matching stored entry as often as it is stored. */
  function Selected(entries: seq<Entry>, game: Option<string>): (r: seq<Entry>)
    ensures forall e :: multiset(r)[e] == if Matches(e, game) then multiset(entries)[e] else 0
  {
    if game.None? || game.value == "" then entries else FilterGame(entries, game.value)
  }

  /** The copy is as long as the number of matching stored entries. */
  lemma {:induction false} SelectedSize(entries: seq<Entry>, game: Option<string>)
    ensures |Selected(entries, game)| == MatchCount(entries, game)
  {
    if entries != [] {
      SelectedSize(entries[1..], game);
      assert entries == [entries[0]] + entries[1..];
      if game.Some? && game.value != "" {
        assert FilterGame(entries, game.value)
          == (if Name(entries[0].game) == game.value then [entries[0]] else []) + FilterGame(entries[1..], game.value);
      }
    }
  }

  // ---------------------------------------------------------------------------------
  // Sorting: `entries.sort((a, b) => b.score - a.score)`, stable.

  ghost predicate NonIncreasing(s: seq<Entry>) {
    forall i, j :: 0 <= i < j < |s| ==> s[i].score >= s[j].score
  }

  /** The entries of `s` with score `k`, in their order in `s`. */
  function WithScore(s: seq<Entry>, k: int): seq<Entry> {
    if s == [] then []
    else if s[0].score == k then [s[0]] + WithScore(s[1..], k)
    else WithScore(s[1..], k)
  }

  /** Filtering keeps stored order: for every score, the kept entries with that score are
      the stored ones with that score that are of the game, in stored order. */
  lemma {:induction false} FilterWithScore(s: seq<Entry>, g: string, k: int)
    ensures WithScore(FilterGame(s, g), k) == FilterGame(WithScore(s, k), g)
  {
    if s != [] {
      FilterWithScore(s[1..], g, k);
      var f := FilterGame(s[1..], g);
      var w := WithScore(s[1..], k);
      if Name(s[0].game) == g {
        assert ([s[0]] + f)[0] == s[0] && ([s[0]] + f)[1..] == f;
        if s[0].score == k {
          assert ([s[0]] + w)[0] == s[0] && ([s[0]] + w)[1..] == w;
        }
      } else if s[0].score == k {
        assert ([s[0]] + w)[0] == s[0] && ([s[0]] + w)[1..] == w;
      }
    }
  }

  lemma SelectedWithScore(entries: seq<Entry>, game: Option<string>, k: int)
    ensures WithScore(Selected(entries, game), k) == Selected(WithScore(entries, k), game)
  {
    if game.Some? && game.value != "" {
      FilterWithScore(entries, game.value, k);
    }
  }

  /** Insert `x` before the first entry whose score is not greater than `x`'s. */
  function Insert(x: Entry, s: seq<Entry>): (r: seq<Entry>)
    ensures |r| == |s| + 1
  {
    if s == [] || x.score >= s[0].score then [x] + s
    else [s[0]] + Insert(x, s[1..])
  }

  /** The stable descending sort: entries of equal score keep their relative order. */
  function SortByScore(s: seq<Entry>): (r: seq<Entry>)
    ensures |r| == |s|
  {
    if s == [] then [] else Insert(s[0], SortByScore(s[1..]))
  }

  /** The tail of a non-increasing sequence is non-increasing. */
  lemma TailNonIncreasing(s: seq<Entry>)
    requires NonIncreasing(s) && s != []
    ensures NonIncreasing(s[1..])
  {
    var t := s[1..];
    forall i, j | 0 <= i < j < |t| ensures t[i].score >= t[j].score { assert t[i] == s[i + 1] && t[j] == s[j + 1]; }
  }

  lemma {:induction false} InsertPermutes(x: Entry, s: seq<Entry>)
    ensures multiset(Insert(x, s)) == multiset(s) + multiset{x}
  {
    if s != [] && x.score < s[0].score {
      InsertPermutes(x, s[1..]);
      assert s == [s[0]] + s[1..];
    }
  }

  /** Every entry of `Insert(x, s)` is `x` or an entry of `s`. */
  lemma {:induction false} InsertMember(x: Entry, s: seq<Entry>, k: nat)
    requires k < |Insert(x, s)|
    ensures Insert(x, s)[k] == x || Insert(x, s)[k] in s
  {
    if s != [] && x.score < s[0].score && k > 0 {
      InsertMember(x, s[1..], k - 1);
    }
  }

  /** A head that scores at least every entry of a non-increasing tail keeps it non-increasing. */
  lemma ConsNonIncreasing(h: Entry, t: seq<Entry>)
    requires NonIncreasing(t) && forall k :: 0 <= k < |t| ==> h.score >= t[k].score
    ensures NonIncreasing([h] + t)
  {
    var r := [h] + t;
    forall i, j | 0 <= i < j < |r| ensures r[i].score >= r[j].score {
      assert r[j] == t[j - 1];
      if i > 0 { assert r[i] == t[i - 1]; }
    }
  }

  lemma {:induction false} InsertSorted(x: Entry, s: seq<Entry>)
    requires NonIncreasing(s)
    ensures NonIncreasing(Insert(x, s))
  {
    if s == [] || x.score >= s[0].score {
      ConsNonIncreasing(x, s);
    } else {
      var t := s[1..];
      TailNonIncreasing(s);
      InsertSorted(x, t);
      var it := Insert(x, t);
      forall k | 0 <= k < |it| ensures s[0].score >= it[k].score {
        InsertMember(x, t, k);
        if it[k] != x {
          var m :| 0 <= m < |t| && t[m] == it[k];
          assert t[m] == s[m + 1];
        }
      }
      ConsNonIncreasing(s[0], it);
    }
  }

  lemma {:induction false} InsertWithScore(x: Entry, s: seq<Entry>, k: int)
    requires NonIncreasing(s)
    ensures WithScore(Insert(x, s), k) == (if x.score == k then [x] else []) + WithScore(s, k)
  {
    var r := Insert(x, s);
    if s == [] || x.score >= s[0].score {
      assert r[1..] == s;
    } else {
      var t := s[1..];
      TailNonIncreasing(s);
      InsertWithScore(x, t, k);
      assert r[1..] == Insert(x, t);
      if s[0].score == k { assert x.score != k; }
    }
  }

  lemma {:induction false} SortProperties(s: seq<Entry>)
    ensures NonIncreasing(SortByScore(s))
    ensures multiset(SortByScore(s)) == multiset(s)
    ensures forall k :: WithScore(SortByScore(s), k) == WithScore(s, k)
  {
    if s != [] {
      SortProperties(s[1..]);
      InsertSorted(s[0], SortByScore(s[1..]));
      InsertPermutes(s[0], SortByScore(s[1..]));
      assert s == [s[0]] + s[1..];
      forall k ensures WithScore(SortByScore(s), k) == WithScore(s, k) {
        InsertWithScore(s[0], SortByScore(s[1..]), k);
        assert WithScore(s, k) == (if s[0].score == k then [s[0]] else []) + WithScore(s[1..], k);
      }
    }
  }

  lemma {:induction false} PrefixNonIncreasing(s: seq<Entry>, n: nat)
    requires NonIncreasing(s) && n <= |s|
    ensures NonIncreasing(s[..n])
  {
    forall i, j | 0 <= i < j < n ensures s[..n][i].score >= s[..n][j].score {
      assert s[..n][i] == s[i] && s[..n][j] == s[j];
    }
  }

  /** Taking a prefix keeps, for every score, a prefix of the entries with that score. */
  lemma {:induction false} PrefixWithScore(s: seq<Entry>, n: nat, k: int)
    requires n <= |s|
    ensures WithScore(s[..n], k) <= WithScore(s, k)
  {
    if n > 0 {
      assert s[..n][1..] == s[1..][..n - 1];
      PrefixWithScore(s[1..], n - 1, k);
    }
  }

  // ---------------------------------------------------------------------------------
  // The whole query.

  /** `getLeaderboard`'s `data`: the top entries for `game` under the limit rule. */
  function Query(entries: seq<Entry>, game: Option<string>, limit: Option<int>): (r: seq<Entry>)
    ensures |r| <= |Selected(entries, game)|
  {
    var sorted := SortByScore(Selected(entries, game));
    sorted[..SliceEnd(|sorted|, EffectiveLimit(limit))]
  }

  /** The result is a prefix of the stably sorted selection, of the length `slice` gives;
      for a limit from 1 to 50 that is min(limit, number of matches). */
  lemma QueryIsSlicedSort(entries: seq<Entry>, game: Option<string>, limit: Option<int>)
    ensures |Selected(entries, game)| == MatchCount(entries, game)
    ensures var sel := Selected(entries, game);
      Query(entries, game, limit) <= SortByScore(sel)
      && |Query(entries, game, limit)| == SliceEnd(|sel|, EffectiveLimit(limit))
    ensures var sel := Selected(entries, game);
      limit.Some? && 1 <= limit.value <= MAX_LIMIT ==>
        |Query(entries, game, limit)| == if limit.value < |sel| then limit.value else |sel|
    ensures var sel := Selected(entries, game);
      limit.Some? && limit.value < 0 ==>
        |Query(entries, game, limit)| == if |sel| + limit.value > 0 then |sel| + limit.value else 0
  {
    var sel := Selected(entries, game);
    SelectedSize(entries, game);
    SortProperties(sel);
  }

  /** With a game filter every returned entry is of that game. */
  lemma QueryOnlyThatGame(entries: seq<Entry>, g: string, limit: Option<int>)
    requires g != ""
    ensures forall e :: e in Query(entries, Some(g), limit) ==> Name(e.game) == g
  {
    var sorted := SortByScore(FilterGame(entries, g));
    SortProperties(FilterGame(entries, g));
    forall e | e in Query(entries, Some(g), limit) ensures Name(e.game) == g {
      assert e in multiset(sorted);
    }
  }

  /** An unknown game gives the empty list. */
  lemma QueryUnknownGameEmpty(entries: seq<Entry>, g: string, limit: Option<int>)
    requires g != "" && FromName(g).None?
    ensures Query(entries, Some(g), limit) == []
  {
    FilterUnknownGame(entries, g);
  }

  /** No parameter or the empty string applies no filter. */
  lemma QueryWithoutFilter(entries: seq<Entry>, game: Option<string>, limit: Option<int>)
    requires game.None? || game == Some("")
    ensures Query(entries, game, limit) <= SortByScore(entries)
    ensures multiset(SortByScore(entries)) == multiset(entries)
  {
    SortProperties(entries);
  }

  /** Returned scores never increase, and entries of equal score appear in store order:
      for every score, the returned entries with that score are the first of the matching
      stored entries with that score, in the order they are stored. */
  lemma QueryOrderedAndStable(entries: seq<Entry>, game: Option<string>, limit: Option<int>)
    ensures NonIncreasing(Query(entries, game, limit))
    ensures forall k :: WithScore(Query(entries, game, limit), k) <= Selected(WithScore(entries, k), game)
  {
    var sel := Selected(entries, game);
    var sorted := SortByScore(sel);
    var n := SliceEnd(|sorted|, EffectiveLimit(limit));
    SortProperties(sel);
    PrefixNonIncreasing(sorted, n);
    forall k ensures WithScore(sorted[..n], k) <= Selected(WithScore(entries, k), game) {
      PrefixWithScore(sorted, n, k);
      SelectedWithScore(entries, game, k);
    }
  }

  lemma PrefixSubMultiset(s: seq<Entry>, n: nat)
    requires n <= |s|
    ensures multiset(s[..n]) <= multiset(s)
  {
    assert s == s[..n] + s[n..];
  }

  /** What a prefix leaves out of the multiset of `s` lies in the rest of `s`. */
  lemma LeftOutIsInRest(s: seq<Entry>, n: nat, o: Entry)
    requires n <= |s| && o in multiset(s) - multiset(s[..n])
    ensures o in s[n..]
  {
    assert s == s[..n] + s[n..];
    assert multiset(s) == multiset(s[..n]) + multiset(s[n..]);
  }

  /** In a non-increasing sequence, an entry of a prefix scores at least any entry after it. */
  lemma PrefixDominatesRest(s: seq<Entry>, n: nat, e: Entry, o: Entry)
    requires NonIncreasing(s) && n <= |s| && e in s[..n] && o in s[n..]
    ensures e.score >= o.score
  {
    var i :| 0 <= i < n && s[..n][i] == e;
    var j :| 0 <= j < |s| - n && s[n..][j] == o;
    assert s[i] == e && s[n + j] == o;
  }

  /** The result is drawn from the store and holds only matching entries, and no matching
      stored entry left out outscores a returned one: it is the top of the matching entries. */
  lemma QueryIsTop(entries: seq<Entry>, game: Option<string>, limit: Option<int>)
    ensures multiset(Query(entries, game, limit)) <= multiset(entries)
    ensures forall e :: e in Query(entries, game, limit) ==> Matches(e, game)
    ensures forall e, o ::
      e in Query(entries, game, limit) && o in multiset(entries) - multiset(Query(entries, game, limit))
      && Matches(o, game)
      ==> e.score >= o.score
  {
    var sel := Selected(entries, game);
    var sorted := SortByScore(sel);
    var n := SliceEnd(|sorted|, EffectiveLimit(limit));
    SortProperties(sel);
    PrefixSubMultiset(sorted, n);
    forall e | e in sorted[..n] ensures Matches(e, game) {
      assert e in multiset(sel);
    }
    forall e, o | e in sorted[..n] && o in multiset(entries) - multiset(sorted[..n]) && Matches(o, game)
      ensures e.score >= o.score
    {
      assert o in multiset(sel) - multiset(sorted[..n]);
      LeftOutIsInRest(sorted, n, o);
      PrefixDominatesRest(sorted, n, e, o);
    }
  }

  /** Alice (star, 100) then Bob (star, 200), queried for `star` with limit 10, come back
      as Bob then Alice. */
  lemma ScenarioTwoStarEntries(alice: Entry, bob: Entry)
    requires alice.score == 100 && bob.score == 200 && alice.game == Star && bob.game == Star
    ensures Query([alice, bob], Some("star"), Some(10)) == [bob, alice]
  {
    assert [alice, bob][1..] == [bob];
    assert [bob][1..] == [];
    assert FilterGame([bob], "star") == [bob];
    assert FilterGame([alice, bob], "star") == [alice, bob];
    assert SortByScore([bob]) == [bob];
    assert Insert(alice, [bob]) == [bob, alice];
  }

  // ---------------------------------------------------------------------------------
  // The limit has no lower bound: a negative one reaches `slice` as a negative end.

  /** `?limit=-1` over 52 or more matching entries returns all but the last one, more than
      the cap of 50. */
  lemma NegativeLimitExceedsCap(entries: seq<Entry>, game: Option<string>)
    requires |Selected(entries, game)| > MAX_LIMIT + 1
    ensures |Query(entries, game, Some(-1))| == |Selected(entries, game)| - 1 > MAX_LIMIT
  {
    QueryIsSlicedSort(entries, game, Some(-1));
  }

  /** The limit rule with the lower bound the cap implies: the default 10 for a missing or
      zero limit, then clamped into [1, 50]. */
  function ClampedLimit(raw: Option<int>): (limit: int)
    ensures 1 <= limit <= MAX_LIMIT
    ensures raw.None? || raw == Some(0) ==> limit == DEFAULT_LIMIT
    ensures raw.Some? && raw.value != 0 ==>
      limit == if raw.value < 1 then 1 else if raw.value > MAX_LIMIT then MAX_LIMIT else raw.value
    ensures raw.Some? && raw.value >= 1 ==> limit == EffectiveLimit(raw)
  {
    var n := EffectiveLimit(raw);
    if n < 1 then 1 else n
  }

  /** The query under the clamped limit. */
  function ClampedQuery(entries: seq<Entry>, game: Option<string>, limit: Option<int>): seq<Entry> {
    var sorted := SortByScore(Selected(entries, game));
    sorted[..SliceEnd(|sorted|, ClampedLimit(limit))]
  }

  /** The clamped query returns min(limit, matches) entries, never more than 50, as a prefix
      of the stably sorted selection, and is equal to the as-written `Query` whenever the
      limit is missing or non-negative. */
  lemma ClampedQueryBounded(entries: seq<Entry>, game: Option<string>, limit: Option<int>)
    ensures var sel := Selected(entries, game);
      var r := ClampedQuery(entries, game, limit);
      && r <= SortByScore(sel)
      && |r| == (if ClampedLimit(limit) < |sel| then ClampedLimit(limit) else |sel|)
      && |r| <= MAX_LIMIT
      && (sel != [] ==> |r| >= 1)
    ensures limit.None? || limit.value >= 0 ==> ClampedQuery(entries, game, limit) == Query(entries, game, limit)
  {
    var sel := Selected(entries, game);
    SortProperties(sel);
  }

  // ---------------------------------------------------------------------------------
  // The handlers.

  const LIST_MESSAGE := "리더보드 조회 성공"
  const CREATED_MESSAGE := "점수가 등록되었습니다"
  const INVALID_MESSAGE := "입력값이 올바르지 않습니다"
  const VALIDATION_ERROR := "VALIDATION_ERROR"

  /** The JSON bodies the two handlers send. */
  datatype Body =
    | Listed(data: seq<Entry>, message: string, status: int, timestamp: string)
    | Created(entry: Entry, message: string, status: int, timestamp: string)
    | Invalid(message: string, code: string, status: int, details: FieldErrors, timestamp: string)

  /** An HTTP response: the status passed to `res.status` (200 when not called) and the body. */
  datatype Reply = Reply(httpStatus: int, body: Body)

  /** The 400 reply for a rejected body. */
  function ValidationReply(details: FieldErrors, timestamp: string): (r: Reply)
    ensures r.httpStatus == 400 && r.body.Invalid? && r.body.status == r.httpStatus
    ensures r.body.code == VALIDATION_ERROR && r.body.details == details
  {
    Reply(400, Invalid(INVALID_MESSAGE, VALIDATION_ERROR, 400, details, timestamp))
  }

  /** `getLeaderboard`. `game` is `req.query.game`, `limit` is `Number(req.query.limit)`,
      `now` the response's time stamp. */
  method GetLeaderboard(st: Storage, game: Option<string>, limit: Option<int>, now: string) returns (reply: Reply)
    requires st.Valid()
    modifies st, st.db
    ensures st.Valid() && st.initialized
    ensures st.Entries() == old(st.Entries())
    ensures st.db.file == old(st.db.file) && st.db.writeCount == old(st.db.writeCount)
    ensures st.db.readCount == old(st.db.readCount) + (if old(st.initialized) then 0 else 1)
    ensures reply == Reply(200, Listed(Query(old(st.Entries()), game, limit), LIST_MESSAGE, 200, now))
  {
    var n := EffectiveLimit(limit);
    var db := st.GetDb();
    var entries := db.data.value.entries;
    if game.Some? && game.value != "" {
      entries := FilterGame(entries, game.value);
    }
    entries := SortByScore(entries);
    var top := entries[..SliceEnd(|entries|, n)];
    reply := Reply(200, Listed(top, LIST_MESSAGE, 200, now));
  }

  /** `submitScore`. `id` is `randomUUID()`, `entryTime` and `replyTime` the two
      `new Date().toISOString()` calls. */
  method SubmitScore(st: Storage, body: Json, id: string, entryTime: string, replyTime: string) returns (reply: Reply)
    requires st.Valid()
    modifies st, st.db
    ensures st.Valid()
    ensures ParseSubmission(body).Failure? ==>
      reply == ValidationReply(ParseSubmission(body).error, replyTime)
      && st.initialized == old(st.initialized) && st.db.data == old(st.db.data)
      && st.db.file == old(st.db.file) && st.db.writeCount == old(st.db.writeCount)
      && st.db.readCount == old(st.db.readCount)
    ensures ParseSubmission(body).Success? ==>
      var sub := ParseSubmission(body).value;
      var entry := Entry(id, sub.nickname, sub.score, sub.game, entryTime);
      && st.initialized
      && st.Entries() == old(st.Entries()) + [entry]
      && st.db.file == st.db.data
      && st.db.writeCount == old(st.db.writeCount) + 1
      && st.db.readCount == old(st.db.readCount) + (if old(st.initialized) then 0 else 1)
      && reply == Reply(201, Created(entry, CREATED_MESSAGE, 201, replyTime))
  {
    var parsed := ParseSubmission(body);
    if parsed.Failure? {
      reply := ValidationReply(parsed.error, replyTime);
      return;
    }
    var sub := parsed.value;
    var db := st.GetDb();
    var entry := Entry(id, sub.nickname, sub.score, sub.game, entryTime);
    db.data := Some(LeaderboardData(db.data.value.entries + [entry]));
    db.Write();
    reply := Reply(201, Created(entry, CREATED_MESSAGE, 201, replyTime));
  }

  /** A body that was accepted survives a restart: a fresh store over the written file
      lists it among its entries. */
  method SubmitThenRestart(file: Option<LeaderboardData>, body: Json, id: string, t1: string, t2: string)
    returns (reloaded: seq<Entry>)
    requires ParseSubmission(body).Success?
    ensures var sub := ParseSubmission(body).value;
      Entry(id, sub.nickname, sub.score, sub.game, t1) in reloaded
  {
    var st := new Storage(file);
    var _ := SubmitScore(st, body, id, t1, t2);
    var restarted := new Storage(st.db.file);
    var db := restarted.GetDb();
    reloaded := db.data.value.entries;
  }
}
