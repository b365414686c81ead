/**
 * The request-body schemas of the leaderboard API and the shape of a stored entry
 * (my-express-api/src/types/leaderboard.ts).
 *
 * The zod schemas are modelled as parse functions over a small JSON value type. As in
 * zod, every refinement of a string or number schema is checked and every failing one
 * reported, a value of the wrong JSON type stops that field's checks, and an object
 * schema checks all of its keys, so a rejection names every failing field.
 */
module LeaderboardTypes {

  import opened Wrappers
  import opened GameIds

  /** A JSON value as `express.json()` hands it to the handler. Numbers are reals, so an
      overflowing literal such as `1e400`, which `JSON.parse` reads as `Infinity`, is not
      represented; the score schema would reject it anyway, as neither an integer nor at
      most 999999. */
  datatype Json =
    | JNull
    | JBool(b: bool)
    | JNumber(n: real)
    | JString(s: string)
    | JArray(elems: seq<Json>)
    | JObject(members: map<string, Json>)

  /** `LeaderboardEntry`. */
  datatype Entry = Entry(id: string, nickname: string, score: int, game: GameId, timestamp: string)

  /** `LeaderboardData`, the content of the JSON file. */
  datatype LeaderboardData = LeaderboardData(entries: seq<Entry>)

  /** A validated body: `SubmitScoreInput`. */
  datatype Submission = Submission(nickname: string, game: GameId, score: int)

  /** One zod issue, by kind. */
  datatype Issue =
    | Required          // the key is absent
    | InvalidType       // the value has the wrong JSON type
    | InvalidEnumValue  // a string outside `star`, `memory`, `jump`
    | TooShort          // `.min(2, …)` on the nickname
    | TooLong           // `.max(12, …)` on the nickname
    | BadCharacters     // `.regex(/^[가-힣a-zA-Z0-9]+$/, …)` on the nickname
    | NotInteger        // `.int()` on the score
    | Negative          // `.min(0)` on the score
    | TooLarge          // `.max(999999, …)` on the score

  /** The messages the schema file supplies itself; the other kinds carry zod's default text. */
  function CustomMessage(i: Issue): (m: Option<string>)
    ensures m.Some? <==> i in {TooShort, TooLong, BadCharacters, TooLarge}
  {
    match i
    case TooShort => Some("닉네임은 2자 이상이어야 합니다")
    case TooLong => Some("닉네임은 12자 이하여야 합니다")
    case BadCharacters => Some("닉네임은 한글, 영문, 숫자만 사용 가능합니다")
    case TooLarge => Some("유효하지 않은 점수입니다")
    case _ => None
  }

  /** `parsed.error.flatten().fieldErrors`: the issues of each failing key. */
  type FieldErrors = map<string, seq<Issue>>

  const MIN_NICKNAME := 2
  const MAX_NICKNAME := 12
  const MAX_SCORE := 999999

  /** One character of the class `[가-힣a-zA-Z0-9]`: the Hangul syllables U+AC00..U+D7A3,
      ASCII letters and ASCII digits. */
  predicate AllowedChar(c: char) {
    ('\U{AC00}' <= c <= '\U{D7A3}') || ('a' <= c <= 'z') || ('A' <= c <= 'Z') || ('0' <= c <= '9')
  }

  /** `/^[가-힣a-zA-Z0-9]+$/.test(s)`: one or more characters, all in the class. */
  predicate MatchesCharset(s: string) {
    |s| >= 1 && forall i :: 0 <= i < |s| ==> AllowedChar(s[i])
  }

  /** JavaScript's `length`: UTF-16 code units, two for a character above U+FFFF (a
      surrogate pair) and one for any other. */
  function Utf16Length(s: string): (n: nat)
    ensures |s| <= n <= 2 * |s|
    ensures (forall i :: 0 <= i < |s| ==> s[i] as int <= 0xFFFF) ==> n == |s|
    ensures (exists i :: 0 <= i < |s| && s[i] as int > 0xFFFF) ==> n > |s|
  {
    if s == [] then 0
    else
      assert forall i :: 0 <= i < |s| - 1 ==> s[1..][i] == s[i + 1];
      (if s[0] as int > 0xFFFF then 2 else 1) + Utf16Length(s[1..])
  }

  /** What `NicknameSchema` accepts, stated directly. */
  /** Code units add up over concatenation. */
  lemma {:induction false} Utf16LengthAppend(a: string, b: string)
    ensures Utf16Length(a + b) == Utf16Length(a) + Utf16Length(b)
  {
    if a == [] {
      assert a + b == b;
    } else {
      assert (a + b)[0] == a[0];
      assert (a + b)[1..] == a[1..] + b;
      Utf16LengthAppend(a[1..], b);
    }
  }

  predicate NicknameAccepted(s: string) {
    MIN_NICKNAME <= Utf16Length(s) <= MAX_NICKNAME && forall i :: 0 <= i < |s| ==> AllowedChar(s[i])
  }

  /** The refinements of `NicknameSchema` that a string fails, in declaration order. */
  function NicknameIssues(s: string): (issues: seq<Issue>)
    ensures issues == [] <==> NicknameAccepted(s)
    ensures TooShort in issues <==> Utf16Length(s) < MIN_NICKNAME
    ensures TooLong in issues <==> Utf16Length(s) > MAX_NICKNAME
    ensures BadCharacters in issues <==> !MatchesCharset(s)
    ensures forall i :: i in issues ==> i in {TooShort, TooLong, BadCharacters}
  {
    (if Utf16Length(s) < MIN_NICKNAME then [TooShort] else [])
    + (if Utf16Length(s) > MAX_NICKNAME then [TooLong] else [])
    + (if !MatchesCharset(s) then [BadCharacters] else [])
  }

  /** `NicknameSchema` applied to the value of the `nickname` key (None: the key is absent). */
  function ParseNickname(v: Option<Json>): (r: Result<string, seq<Issue>>)
    ensures r.Success? <==> v.Some? && v.value.JString? && NicknameAccepted(v.value.s)
    ensures r.Success? ==> r.value == v.value.s
    ensures r.Failure? ==> r.error != []
    ensures v.None? ==> r == Failure([Required])
    ensures v.Some? && !v.value.JString? ==> r == Failure([InvalidType])
    ensures v.Some? && v.value.JString? && r.Failure? ==> r.error == NicknameIssues(v.value.s)
  {
    match v
    case None => Failure([Required])
    case Some(JString(s)) =>
      var issues := NicknameIssues(s);
      if issues == [] then Success(s) else Failure(issues)
    case Some(_) => Failure([InvalidType])
  }

  /** `GameIdSchema`, `z.enum(['star', 'memory', 'jump'])`. */
  function ParseGameId(v: Option<Json>): (r: Result<GameId, seq<Issue>>)
    ensures r.Success? <==> v.Some? && v.value.JString? && v.value.s in {"star", "memory", "jump"}
    ensures r.Success? ==> Name(r.value) == v.value.s
    ensures r.Failure? ==> |r.error| == 1
    ensures v.None? ==> r == Failure([Required])
    ensures v.Some? && !v.value.JString? ==> r == Failure([InvalidType])
    ensures v.Some? && v.value.JString? && r.Failure? ==> r.error == [InvalidEnumValue]
  {
    match v
    case None => Failure([Required])
    case Some(JString(s)) =>
      (match FromName(s)
       case Some(g) => Success(g)
       case None => Failure([InvalidEnumValue]))
    case Some(_) => Failure([InvalidType])
  }

  /** `Number.isInteger` on a finite number. */
  predicate IsInteger(n: real) {
    n.Floor as real == n
  }

  /** The refinements of `ScoreSchema` that a number fails, in declaration order. */
  function ScoreIssues(n: real): (issues: seq<Issue>)
    ensures issues == [] <==> IsInteger(n) && 0.0 <= n <= MAX_SCORE as real
    ensures NotInteger in issues <==> !IsInteger(n)
    ensures Negative in issues <==> n < 0.0
    ensures TooLarge in issues <==> n > MAX_SCORE as real
  {
    (if !IsInteger(n) then [NotInteger] else [])
    + (if n < 0.0 then [Negative] else [])
    + (if n > MAX_SCORE as real then [TooLarge] else [])
  }

  /** `ScoreSchema`, `z.number().int().min(0).max(999999)`; no coercion, so a numeric
      string is of the wrong type. */
  function ParseScore(v: Option<Json>): (r: Result<int, seq<Issue>>)
    ensures r.Success? <==>
      v.Some? && v.value.JNumber? && IsInteger(v.value.n) && 0.0 <= v.value.n <= MAX_SCORE as real
    ensures r.Success? ==> 0 <= r.value <= MAX_SCORE && r.value as real == v.value.n
    ensures r.Failure? ==> r.error != []
    ensures v.None? ==> r == Failure([Required])
    ensures v.Some? && !v.value.JNumber? ==> r == Failure([InvalidType])
    ensures v.Some? && v.value.JNumber? && r.Failure? ==> r.error == ScoreIssues(v.value.n)
  {
    match v
    case None => Failure([Required])
    case Some(JNumber(n)) =>
      var issues := ScoreIssues(n);
      if issues == [] then Success(n.Floor) else Failure(issues)
    case Some(_) => Failure([InvalidType])
  }

  /** The value of key `k` of an object, None when absent. */
  function Member(members: map<string, Json>, k: string): Option<Json> {
    if k in members then Some(members[k]) else None
  }

  /** The issues of one field's parse, empty on success. */
  function IssuesOf<T>(r: Result<T, seq<Issue>>): seq<Issue> {
    if r.Failure? then r.error else []
  }

  /** The field-error map that `flatten()` builds from the three field results: a key for
      each failing field and no other key. */
  function CollectFieldErrors(nickname: seq<Issue>, game: seq<Issue>, score: seq<Issue>): (m: FieldErrors)
    ensures "nickname" in m <==> nickname != []
    ensures "game" in m <==> game != []
    ensures "score" in m <==> score != []
    ensures forall k :: k in m ==> m[k] == if k == "nickname" then nickname else if k == "game" then game else score
    ensures forall k :: k in m ==> k in {"nickname", "game", "score"}
  {
    var m0: FieldErrors := map[];
    var m1 := if nickname != [] then m0["nickname" := nickname] else m0;
    var m2 := if game != [] then m1["game" := game] else m1;
    if score != [] then m2["score" := score] else m2
  }

  /** `SubmitScoreSchema.safeParse(body)`. A body that is not a JSON object fails as a whole
      (a form error), with no field errors; unknown keys are ignored. */
  function ParseSubmission(body: Json): (r: Result<Submission, FieldErrors>)
    ensures r.Success? <==>
      body.JObject?
      && ParseNickname(Member(body.members, "nickname")).Success?
      && ParseGameId(Member(body.members, "game")).Success?
      && ParseScore(Member(body.members, "score")).Success?
    ensures r.Success? ==>
      r.value == Submission(ParseNickname(Member(body.members, "nickname")).value,
                            ParseGameId(Member(body.members, "game")).value,
                            ParseScore(Member(body.members, "score")).value)
    ensures r.Failure? && !body.JObject? ==> r.error == map[]
    ensures r.Failure? && body.JObject? ==>
      r.error == CollectFieldErrors(IssuesOf(ParseNickname(Member(body.members, "nickname"))),
                                    IssuesOf(ParseGameId(Member(body.members, "game"))),
                                    IssuesOf(ParseScore(Member(body.members, "score"))))
  {
    match body
    case JObject(members) =>
      var n := ParseNickname(Member(members, "nickname"));
      var g := ParseGameId(Member(members, "game"));
      var s := ParseScore(Member(members, "score"));
      if n.Success? && g.Success? && s.Success? then
        Success(Submission(n.value, g.value, s.value))
      else
        Failure(CollectFieldErrors(IssuesOf(n), IssuesOf(g), IssuesOf(s)))
    case _ => Failure(map[])
  }

  /** A body is accepted exactly when each of its three fields is, and the accepted body
      carries the submitted values. */
  lemma SubmissionAcceptedIff(members: map<string, Json>, nickname: string, game: string, score: real)
    requires members == map["nickname" := JString(nickname), "game" := JString(game), "score" := JNumber(score)]
    ensures ParseSubmission(JObject(members)).Success? <==>
      NicknameAccepted(nickname) && game in {"star", "memory", "jump"}
      && IsInteger(score) && 0.0 <= score <= MAX_SCORE as real
    ensures ParseSubmission(JObject(members)).Success? ==>
      var sub := ParseSubmission(JObject(members)).value;
      sub.nickname == nickname && Name(sub.game) == game && sub.score as real == score
  {
    assert Member(members, "nickname") == Some(JString(nickname));
    assert Member(members, "game") == Some(JString(game));
    assert Member(members, "score") == Some(JNumber(score));
  }

  /** Every failing field is reported, keyed by its name, not only the first one. */
  lemma RejectionNamesEveryFailingField(body: Json)
    requires body.JObject?
    ensures var r := ParseSubmission(body);
      (ParseNickname(Member(body.members, "nickname")).Failure? <==> r.Failure? && "nickname" in r.error)
      && (ParseGameId(Member(body.members, "game")).Failure? <==> r.Failure? && "game" in r.error)
      && (ParseScore(Member(body.members, "score")).Failure? <==> r.Failure? && "score" in r.error)
  {
    var r := ParseSubmission(body);
    if r.Failure? {
      var n := ParseNickname(Member(body.members, "nickname"));
      var g := ParseGameId(Member(body.members, "game"));
      var s := ParseScore(Member(body.members, "score"));
      assert n.Failure? <==> IssuesOf(n) != [];
      assert g.Failure? <==> IssuesOf(g) != [];
      assert s.Failure? <==> IssuesOf(s) != [];
    }
  }

  /** A nickname of one character, as in `{nickname: "A", game: "star", score: 10}`, is
      rejected with a `nickname` detail and nothing else. */
  lemma ShortNicknameRejected()
    ensures var r := ParseSubmission(JObject(map["nickname" := JString("A"), "game" := JString("star"), "score" := JNumber(10.0)]));
      r.Failure? && r.error == map["nickname" := [TooShort]]
  {
    var members := map["nickname" := JString("A"), "game" := JString("star"), "score" := JNumber(10.0)];
    assert Member(members, "nickname") == Some(JString("A"));
    assert Member(members, "game") == Some(JString("star"));
    assert Member(members, "score") == Some(JNumber(10.0));
    assert ParseNickname(Some(JString("A"))) == Failure([TooShort]) by {
      assert Utf16Length("A") == 1 by { assert "A"[1..] == []; }
      assert MatchesCharset("A");
      assert NicknameIssues("A") == [TooShort];
    }
    assert ParseGameId(Some(JString("star"))) == Success(Star);
    assert ParseScore(Some(JNumber(10.0))).Success? by {
      assert (10.0).Floor == 10;
      assert ScoreIssues(10.0) == [];
    }
    var m := CollectFieldErrors([TooShort], [], []);
    assert m.Keys == {"nickname"};
    assert ParseSubmission(JObject(members)) == Failure(m);
  }

  /** A score above the maximum, as in `{nickname: "가나다", game: "memory", score: 1000000}`,
      is rejected with a `score` detail and nothing else. */
  lemma ScoreOverMaxRejected()
    ensures var r := ParseSubmission(JObject(map["nickname" := JString("가나다"), "game" := JString("memory"), "score" := JNumber(1000000.0)]));
      r.Failure? && r.error == map["score" := [TooLarge]]
  {
    assert NicknameIssues("가나다") == [] by { assert Utf16Length("가나다") == 3; }
    var members := map["nickname" := JString("가나다"), "game" := JString("memory"), "score" := JNumber(1000000.0)];
    assert Member(members, "nickname") == Some(JString("가나다"));
    assert Member(members, "game") == Some(JString("memory"));
    assert Member(members, "score") == Some(JNumber(1000000.0));
    assert ParseNickname(Some(JString("가나다"))) == Success("가나다");
    assert ParseGameId(Some(JString("memory"))) == Success(Memory);
    assert ParseScore(Some(JNumber(1000000.0))) == Failure([TooLarge]) by {
      assert (1000000.0).Floor == 1000000;
      assert ScoreIssues(1000000.0) == [TooLarge];
    }
    var m := CollectFieldErrors([], [], [TooLarge]);
    assert m.Keys == {"score"};
    assert ParseSubmission(JObject(members)) == Failure(m);
  }

  /** A character above U+FFFF, such as an emoji, is two code units long, so on its own it
      is long enough and fails only the character class. */
  lemma SupplementaryCharCountsTwice(c: char)
    requires c as int > 0xFFFF
    ensures NicknameIssues([c]) == [BadCharacters]
  {
    assert Utf16Length([c]) == 2 by { assert [c][1..] == []; }
    assert !AllowedChar([c][0]);
  }

  /** A numeric string is not a number: `"100"` fails with a type issue, there is no coercion. */
  lemma NumericStringScoreRejected()
    ensures ParseScore(Some(JString("100"))) == Failure([InvalidType])
  {
  }
}
