/** The recommendations service (main.py): `POST /recommendations/create`
    checks a static bearer token, validates the submission id and the
    culture, asks the Dishes table for the dishes of that culture with a
    case-insensitive formula, and answers with three of them picked at
    random. Each Airtable answer is an input; the random pick is a choice of
    three distinct positions in the matched list. */
module Recommendations {
  import opened Json
  import opened PyString

  /** The result of `check_auth`: it returns normally, or raises an
      `HTTPException` with a status and a detail text. */
  datatype Outcome = Pass | Fail(status: int, detail: string)

  const BearerPrefix := "Bearer "

  /** `check_auth`: the Authorization header must start with "Bearer ", and
      the text after its first space, stripped, must equal the secret. */
  function CheckAuth(authorization: Option<string>, secret: string): (o: Outcome)
    ensures o == Pass <==>
      && authorization.Some?
      && StartsWith(authorization.value, BearerPrefix)
      && Strip(authorization.value[|BearerPrefix|..]) == secret
    ensures authorization.None? || !StartsWith(authorization.value, BearerPrefix) ==>
      o == Fail(401, "Missing bearer")
    ensures (authorization.Some? && StartsWith(authorization.value, BearerPrefix)
             && Strip(authorization.value[|BearerPrefix|..]) != secret) ==>
      o == Fail(401, "Bad bearer")
  {
    if authorization.None? || authorization.value == "" || !StartsWith(authorization.value, BearerPrefix) then
      Fail(401, "Missing bearer")
    else
      var auth := authorization.value;
      assert auth == "Bearer" + [' '] + auth[|BearerPrefix|..];
      AfterFirstPastPrefix("Bearer", ' ', auth[|BearerPrefix|..]);
      var token := Strip(AfterFirst(auth, ' '));
      if token != secret then Fail(401, "Bad bearer") else Pass
  }

  /** Whitespace between "Bearer " and the secret, and after it, is
      tolerated, so long as the secret itself has none at its ends. */
  lemma PaddedBearerAccepted(secret: string, left: string, right: string)
    requires secret != [] && !IsSpace(secret[0]) && !IsSpace(secret[|secret| - 1])
    requires AllSpace(left) && AllSpace(right)
    ensures CheckAuth(Some(BearerPrefix + left + secret + right), secret) == Pass
  {
    var auth := BearerPrefix + left + secret + right;
    assert auth[|BearerPrefix|..] == left + secret + right;
    StripSurrounded(left, secret, right);
  }

  /** A configured secret with whitespace at either end can never be
      presented: the token is always stripped before the comparison. */
  lemma UnstrippedSecretNeverMatches(authorization: Option<string>, secret: string)
    requires Strip(secret) != secret
    ensures CheckAuth(authorization, secret) != Pass
  {
    if authorization.Some? && StartsWith(authorization.value, BearerPrefix) {
      StripIdempotent(authorization.value[|BearerPrefix|..]);
    }
  }

  /** The number of single quotes in `s`. */
  function CountQuotes(s: string): nat {
    if s == [] then 0 else (if s[0] == '\'' then 1 else 0) + CountQuotes(s[1..])
  }

  /** `escape_quotes`: every single quote becomes backslash-quote. The result
      is longer by the number of quotes, and each quote in it comes right
      after a backslash (so the result never starts with a quote). */
  function EscapeQuotes(s: string): (r: string)
    ensures |r| == |s| + CountQuotes(s)
    ensures forall i :: 0 <= i < |r| && r[i] == '\'' ==> 0 < i && r[i - 1] == '\\'
  {
    if s == [] then []
    else
      var head := if s[0] == '\'' then "\\'" else [s[0]];
      var tail := EscapeQuotes(s[1..]);
      var r := head + tail;
      assert forall i :: |head| <= i < |r| ==> r[i] == tail[i - |head|];
      r
  }

  /** `t.replace("\\'", "'")`: each backslash-quote, scanned left to right
      without overlap, becomes a single quote. */
  function UnescapeQuotes(t: string): string {
    if |t| >= 2 && t[0] == '\\' && t[1] == '\'' then "'" + UnescapeQuotes(t[2..])
    else if t == [] then []
    else [t[0]] + UnescapeQuotes(t[1..])
  }

  /** Undoing the escape recovers the original text exactly: the escape
      loses nothing and changes no character other than the quotes. */
  lemma {:induction false} EscapeRoundTrip(s: string)
    ensures UnescapeQuotes(EscapeQuotes(s)) == s
  {
    if s != [] {
      var tail := EscapeQuotes(s[1..]);
      EscapeRoundTrip(s[1..]);
      if s[0] == '\'' {
        assert EscapeQuotes(s) == "\\'" + tail;
        assert ("\\'" + tail)[2..] == tail;
      } else {
        var t := [s[0]] + tail;
        assert EscapeQuotes(s) == t;
        assert t[1..] == tail;
        assert |t| >= 2 ==> t[1] == tail[0];
      }
    }
  }

  /** The escape changes a text exactly when the text holds a single quote. */
  lemma {:induction false} EscapeChangesOnlyQuotedText(s: string)
    ensures EscapeQuotes(s) == s <==> '\'' !in s
  {
    if s != [] {
      EscapeChangesOnlyQuotedText(s[1..]);
      assert s == [s[0]] + s[1..];
      if s[0] == '\'' {
        assert |EscapeQuotes(s)| > |s|;
      } else {
        assert EscapeQuotes(s) == [s[0]] + EscapeQuotes(s[1..]);
        assert '\'' in s <==> '\'' in s[1..];
      }
    }
  }

  const FormulaHead := "LOWER({culture}) = LOWER('"
  const FormulaTail := "')"

  /** The case-insensitive filter sent to the Dishes table. */
  function CultureFormula(culture: string): string {
    FormulaHead + EscapeQuotes(culture) + FormulaTail
  }

  /** The quoted literal of the formula, read back with the escape undone,
      is the culture itself. */
  lemma FormulaLiteralRoundTrip(culture: string)
    ensures var f := CultureFormula(culture);
      && |FormulaHead| + |FormulaTail| <= |f|
      && f[..|FormulaHead|] == FormulaHead
      && f[|f| - |FormulaTail|..] == FormulaTail
      && UnescapeQuotes(f[|FormulaHead|..|f| - |FormulaTail|]) == culture
  {
    var f := CultureFormula(culture);
    assert f[|FormulaHead|..|f| - |FormulaTail|] == EscapeQuotes(culture);
    EscapeRoundTrip(culture);
  }

  /** A quote is "bare" when no backslash stands right before it. This is
      a textual notion only: it does not say how Airtable reads a backslash
      that is itself preceded by a backslash. */
  predicate BareQuoteAt(f: string, i: int)
    requires 0 <= i < |f|
  {
    f[i] == '\'' && (i == 0 || f[i - 1] != '\\')
  }

  /** The only quotes of the formula with no backslash right before them are
      the two that delimit the literal: every quote taken from the culture
      is written with a backslash before it. */
  lemma FormulaBareQuotes(culture: string, i: int)
    requires 0 <= i < |CultureFormula(culture)|
    requires BareQuoteAt(CultureFormula(culture), i)
    ensures i == |FormulaHead| - 1 || i == |CultureFormula(culture)| - 2
  {
    var e := EscapeQuotes(culture);
    var f := CultureFormula(culture);
    if i < |FormulaHead| {
      assert f[i] == FormulaHead[i];
    } else if |FormulaHead| + |e| <= i {
      assert f[i] == FormulaTail[i - |FormulaHead| - |e|];
    }
  }

  /** The escape works piece by piece. */
  lemma {:induction false} EscapeConcat(a: string, b: string)
    ensures EscapeQuotes(a + b) == EscapeQuotes(a) + EscapeQuotes(b)
  {
    if a == [] {
      assert a + b == b;
    } else {
      assert (a + b)[0] == a[0] && (a + b)[1..] == a[1..] + b;
      EscapeConcat(a[1..], b);
    }
  }

  /** What the escape does not guarantee, at the end of the literal: a
      culture that ends with a backslash puts that backslash right before
      the closing delimiter. */
  lemma TrailingBackslashReachesDelimiter(culture: string)
    requires culture != [] && culture[|culture| - 1] == '\\'
    ensures var f := CultureFormula(culture);
      |f| >= 3 && f[|f| - 3] == '\\' && f[|f| - 2] == '\''
  {
    var p := culture[..|culture| - 1];
    assert culture == p + "\\";
    EscapeConcat(p, "\\");
    assert EscapeQuotes("\\") == "\\";
  }

  /** What the escape does not guarantee, inside the literal: a backslash
      followed by a quote in the culture becomes backslash, backslash,
      quote, an escaped backslash followed by a quote to a reader that
      honours backslash escapes. */
  lemma BackslashBeforeQuoteDoubled(a: string, b: string)
    ensures EscapeQuotes(a + "\\'" + b) == EscapeQuotes(a) + "\\\\'" + EscapeQuotes(b)
  {
    var q := "\\'";
    assert a + q + b == a + (q + b);
    EscapeConcat(a, q + b);
    EscapeConcat(q, b);
    EscapedBackslashQuote();
  }

  /** The escape of backslash-quote. */
  lemma EscapedBackslashQuote()
    ensures EscapeQuotes("\\'") == "\\\\'"
  {
    assert "\\'"[1..] == "'" && "'"[1..] == [];
  }

  /** An `HTTPException` as FastAPI sends it: `{"detail": ...}`. */
  function DetailReply(status: int, detail: string): Reply {
    Reply(status, Obj([("detail", Str(detail))]))
  }

  /** Three pairwise distinct positions below `n`: what `random.sample(records, 3)`
      chooses. */
  predicate DistinctPicks(picks: seq<nat>, n: nat) {
    && |picks| == 3
    && (forall i :: 0 <= i < 3 ==> picks[i] < n)
    && (forall i, j :: 0 <= i < j < 3 ==> picks[i] != picks[j])
  }

  /** The records at the chosen positions, in the order chosen. */
  function Sample(records: seq<Record>, picks: seq<nat>): (s: seq<Record>)
    requires DistinctPicks(picks, |records|)
  {
    seq(3, i requires 0 <= i < 3 => records[picks[i]])
  }

  /** The normalised form of one sampled record. */
  function DishObject(r: Record): Json {
    Obj([
      ("id", Str(r.id)),
      ("name", Get(r.fields, "name")),
      ("culture", Get(r.fields, "culture")),
      ("image_url", Get(r.fields, "image_url")),
      ("description", Get(r.fields, "description"))
    ])
  }

  /** The normalised objects of a sample, in sample order. */
  function Normalized(sample: seq<Record>): seq<Json> {
    seq(|sample|, i requires 0 <= i < |sample| => DishObject(sample[i]))
  }

  /** `[d["id"] for d in dishes]`. */
  function DishIds(dishes: seq<Json>): seq<Json> {
    seq(|dishes|, i requires 0 <= i < |dishes| => Member(dishes[i], "id"))
  }

  /** The success payload. */
  function SuccessBody(submissionId: string, culture: string, dishes: seq<Json>): Json {
    Obj([
      ("ok", Bool(true)),
      ("submission_id", Str(submissionId)),
      ("culture", Str(culture)),
      ("count", Number(3)),
      ("dishes", Arr(dishes)),
      ("dish_ids", Arr(DishIds(dishes)))
    ])
  }

  /** The success payload for a sample: it has exactly the six keys, says
      `ok` and a count equal to the number of dishes, echoes the submission
      id and the culture it was given, lists one normalised object per
      sampled record in sample order, and `dish_ids` holds the ids of those
      records in the same order. */
  lemma SuccessBodyShape(submissionId: string, culture: string, sample: seq<Record>)
    requires |sample| == 3
    ensures var body := SuccessBody(submissionId, culture, Normalized(sample));
      && Keys(body.members) == ["ok", "submission_id", "culture", "count", "dishes", "dish_ids"]
      && Member(body, "ok") == Bool(true)
      && Member(body, "submission_id") == Str(submissionId)
      && Member(body, "culture") == Str(culture)
      && Member(body, "count") == Number(|sample|)
      && Member(body, "dishes") == Arr(Normalized(sample))
      && Member(body, "dish_ids") == Arr(seq(|sample|, i requires 0 <= i < |sample| => Str(sample[i].id)))
  {
    var dishes := Normalized(sample);
    var ms := SuccessBody(submissionId, culture, dishes).members;
    assert Keys(ms) == ["ok", "submission_id", "culture", "count", "dishes", "dish_ids"];
    FindFirst(ms, "ok", 0);
    FindFirst(ms, "submission_id", 1);
    FindFirst(ms, "culture", 2);
    FindFirst(ms, "count", 3);
    FindFirst(ms, "dishes", 4);
    FindFirst(ms, "dish_ids", 5);
    NormalizedIds(sample);
  }

  /** The ids read back from the normalised dishes are the records' ids, in
      order. */
  lemma NormalizedIds(sample: seq<Record>)
    ensures DishIds(Normalized(sample)) == seq(|sample|, i requires 0 <= i < |sample| => Str(sample[i].id))
  {
    var dishes := Normalized(sample);
    forall i | 0 <= i < |sample| ensures Member(dishes[i], "id") == Str(sample[i].id) {
      FindFirst(dishes[i].members, "id", 0);
    }
  }

  /** Distinct positions in a list of records with distinct ids give
      dishes with distinct ids. */
  lemma SampleIdsDistinct(records: seq<Record>, picks: seq<nat>)
    requires DistinctPicks(picks, |records|)
    requires forall i, j :: 0 <= i < j < |records| ==> records[i].id != records[j].id
    ensures forall i, j :: 0 <= i < j < 3 ==> Sample(records, picks)[i].id != Sample(records, picks)[j].id
  {
    forall i, j | 0 <= i < j < 3 ensures Sample(records, picks)[i].id != Sample(records, picks)[j].id {
      var p, q := picks[i], picks[j];
      if p < q {
      } else {
        assert q < p;
      }
    }
  }

  /** The `for r in sample` loop that builds `dishes`. */
  method NormalizeDishes(sample: seq<Record>) returns (dishes: seq<Json>)
    ensures |dishes| == |sample|
    ensures forall i :: 0 <= i < |sample| ==> dishes[i] == DishObject(sample[i])
  {
    dishes := [];
    for k := 0 to |sample|
      invariant |dishes| == k
      invariant forall i :: 0 <= i < k ==> dishes[i] == DishObject(sample[i])
    {
      var f := sample[k].fields;
      dishes := dishes + [Obj([
        ("id", Str(sample[k].id)),
        ("name", Get(f, "name")),
        ("culture", Get(f, "culture")),
        ("image_url", Get(f, "image_url")),
        ("description", Get(f, "description"))
      ])];
    }
  }

  /** `create_recommendations`, given the already parsed body, the
      Authorization header, the configured secret and Dishes table, the
      answer Airtable would give to the one query, and the positions
      `random.sample` would choose. It returns the queries sent, in order,
      and the reply. */
  method CreateRecommendations(
    authorization: Option<string>, submissionId: string, culture: string,
    secret: string, dishesTable: string, dishes: Fetch, picks: seq<nat>)
    returns (sent: seq<Query>, reply: Reply)
    requires secret != ""
    requires dishes.Fetched? && |dishes.records| >= 3 ==> DistinctPicks(picks, |dishes.records|)
    // authentication comes before everything else
    ensures CheckAuth(authorization, secret).Fail? ==>
      && sent == []
      && reply == DetailReply(401, CheckAuth(authorization, secret).detail)
    // then the trimmed parameters must both be non-blank
    ensures CheckAuth(authorization, secret) == Pass && (Strip(submissionId) == "" || Strip(culture) == "") ==>
      sent == [] && reply == DetailReply(400, "missing_params")
    // then exactly one query, with the escaped case-insensitive formula
    ensures CheckAuth(authorization, secret) == Pass && Strip(submissionId) != "" && Strip(culture) != "" ==>
      sent == [Query(dishesTable, [("filterByFormula", Str("LOWER({culture}) = LOWER('" + EscapeQuotes(Strip(culture)) + "')"))])]
    ensures |sent| == 1 && dishes.HttpError? ==> reply == Crash("HTTPError: " + dishes.message)
    ensures |sent| == 1 && dishes.Fetched? && |dishes.records| < 3 ==> reply == DetailReply(400, "not_enough_dishes")
    ensures |sent| == 1 && dishes.Fetched? && |dishes.records| >= 3 ==>
      reply == Reply(200, SuccessBody(Strip(submissionId), Strip(culture), Normalized(Sample(dishes.records, picks))))
    // success only on that path
    ensures reply.Reply? && reply.status == 200 ==> |sent| == 1 && dishes.Fetched? && |dishes.records| >= 3
  {
    sent := [];
    var auth := CheckAuth(authorization, secret);
    if auth.Fail? {
      reply := DetailReply(auth.status, auth.detail);
      return;
    }
    var sid := Strip(submissionId);
    var cult := Strip(culture);
    if sid == "" || cult == "" {
      reply := DetailReply(400, "missing_params");
      return;
    }
    var formula := CultureFormula(cult);
    sent := [Query(dishesTable, [("filterByFormula", Str(formula))])];
    if dishes.HttpError? {
      reply := Crash("HTTPError: " + dishes.message);
      return;
    }
    var records := dishes.records;
    if |records| < 3 {
      reply := DetailReply(400, "not_enough_dishes");
      return;
    }
    var sample := Sample(records, picks);
    var normalized := NormalizeDishes(sample);
    assert normalized == Normalized(sample);
    reply := Reply(200, SuccessBody(sid, cult, normalized));
  }
}
