/** The dish-suggestion service (app.py): `GET /api/get_plats` looks a form
    submission up in the Tally table by its `submission_id`, reads the
    culture it names, asks the Plats table for the dishes of that culture,
    shuffles them and answers with up to three of them; `GET /api/health`
    answers that the service is up. Each Airtable answer is an input; the
    shuffle draws one random number per list position. */
module Plats {
  import opened Json
  import opened PyString

  /** The two table names, AIRTABLE_TALLY_TABLE and AIRTABLE_PLATS_TABLE. */
  datatype Config = Config(tallyTable: string, platsTable: string)

  /** The table names used when the environment sets neither. */
  const DefaultConfig := Config("Tally", "Plats")

  /** `health`: always status 200 with `{"status": "ok"}`. */
  function Health(): (r: Reply)
    ensures r.Reply? && r.status == 200
    ensures r.body.Obj? && Keys(r.body.members) == ["status"] && Member(r.body, "status") == Str("ok")
  {
    Reply(200, Obj([("status", Str("ok"))]))
  }

  /** An error answer: `jsonify({"error": message})` with a status. */
  function ErrorReply(status: int, message: string): Reply {
    Reply(status, Obj([("error", Str(message))]))
  }

  /** `request.args.get("submission_id", "").strip()`. */
  function RequestedId(arg: Option<string>): string {
    Strip(if arg.Some? then arg.value else "")
  }

  /** The lookup of the submission: the id goes into the formula as it is. */
  function TallyQuery(cfg: Config, id: string): Query {
    Query(cfg.tallyTable, [("filterByFormula", Str("{submission_id}='" + id + "'")), ("maxRecords", Number(1))])
  }

  /** The search for the dishes of a culture, one page of at most 50. */
  function PlatsQuery(cfg: Config, filter: string): Query {
    Query(cfg.platsTable, [("filterByFormula", Str(filter)), ("pageSize", Number(50))])
  }

  /** The lookup succeeded and found a submission. */
  predicate Found(arg: Option<string>, tally: Fetch) {
    RequestedId(arg) != "" && tally.Fetched? && tally.records != []
  }

  /** The fields of the first record the lookup returned. */
  function SubmissionFields(tally: Fetch): Fields
    requires tally.Fetched? && tally.records != []
  {
    tally.records[0].fields
  }

  /** `culture_name`: the culture itself when it is a string, otherwise the
      submission's `culture_name` field. */
  function CultureName(fields: Fields): Json {
    var culture := Get(fields, "culture");
    if culture.Str? then culture else Get(fields, "culture_name")
  }

  function Min(a: int, b: int): int {
    if a < b then a else b
  }

  ghost predicate Distinct<T>(s: seq<T>) {
    forall i, j :: 0 <= i < j < |s| ==> s[i] != s[j]
  }

  /** `s` with the elements at `i` and `j` exchanged. */
  function Swap<T>(s: seq<T>, i: nat, j: nat): (r: seq<T>)
    requires i < |s| && j < |s|
    ensures |r| == |s|
  {
    s[i := s[j]][j := s[i]]
  }

  lemma SwapKeepsDistinct<T>(s: seq<T>, i: nat, j: nat)
    requires i < |s| && j < |s| && Distinct(s)
    ensures Distinct(Swap(s, i, j))
  {
    var r := Swap(s, i, j);
    // the position of `s` that each position of `r` came from
    var from := (k: int) => if k == i then j else if k == j then i else k;
    forall a, b | 0 <= a < b < |r| ensures r[a] != r[b] {
      assert r[a] == s[from(a)] && r[b] == s[from(b)];
      assert from(a) != from(b);
    }
  }

  /** `randbelow(i + 1)` in the pass for position `i`: the draw for `i`,
      reduced to a position at or below `i`. */
  function Pick(draws: seq<nat>, i: nat): (j: nat)
    requires i < |draws|
    ensures j <= i
  {
    draws[i] % (i + 1)
  }

  /** The passes of `random.shuffle` for positions `i` down to 1: each
      exchanges position `i` with a position at or below it, picked by the
      draw for `i`. */
  function ShufflePasses<T>(s: seq<T>, draws: seq<nat>, i: nat): (r: seq<T>)
    requires i < |s| && |draws| == |s|
    ensures |r| == |s|
    decreases i
  {
    if i == 0 then s else ShufflePasses(Swap(s, i, Pick(draws, i)), draws, i - 1)
  }

  /** The list `random.shuffle` leaves behind, given its draws. */
  function Shuffled<T>(s: seq<T>, draws: seq<nat>): (r: seq<T>)
    requires |draws| == |s|
    ensures |r| == |s|
  {
    if s == [] then s else ShufflePasses(s, draws, |s| - 1)
  }

  lemma {:induction false} ShufflePassesPermutes<T>(s: seq<T>, draws: seq<nat>, i: nat)
    requires i < |s| && |draws| == |s|
    ensures multiset(ShufflePasses(s, draws, i)) == multiset(s)
    decreases i
  {
    if i > 0 {
      ShufflePassesPermutes(Swap(s, i, Pick(draws, i)), draws, i - 1);
    }
  }

  lemma {:induction false} ShufflePassesKeepDistinct<T>(s: seq<T>, draws: seq<nat>, i: nat)
    requires i < |s| && |draws| == |s| && Distinct(s)
    ensures Distinct(ShufflePasses(s, draws, i))
    decreases i
  {
    if i > 0 {
      SwapKeepsDistinct(s, i, Pick(draws, i));
      ShufflePassesKeepDistinct(Swap(s, i, Pick(draws, i)), draws, i - 1);
    }
  }

  /** Shuffling is a permutation: same length, same elements with the same
      multiplicities, and no two positions made equal. */
  lemma ShuffledPermutes<T>(s: seq<T>, draws: seq<nat>)
    requires |draws| == |s|
    ensures multiset(Shuffled(s, draws)) == multiset(s)
    ensures Distinct(s) ==> Distinct(Shuffled(s, draws))
  {
    if s != [] {
      ShufflePassesPermutes(s, draws, |s| - 1);
      if Distinct(s) {
        ShufflePassesKeepDistinct(s, draws, |s| - 1);
      }
    }
  }

  /** `random.shuffle(a)` on the list in place: the passes run from the last
      position down to position 1. */
  method Shuffle<T>(a: array<T>, draws: seq<nat>)
    requires |draws| == a.Length
    modifies a
    ensures a[..] == Shuffled(old(a[..]), draws)
  {
    if a.Length == 0 {
      return;
    }
    var i := a.Length - 1;
    while i > 0
      invariant 0 <= i < a.Length
      invariant ShufflePasses(a[..], draws, i) == Shuffled(old(a[..]), draws)
    {
      var j := Pick(draws, i);
      ghost var before := a[..];
      a[i], a[j] := a[j], a[i];
      assert a[..] == Swap(before, i, j);
      i := i - 1;
    }
  }

  /** One item of the answer: the dish's `nom`, `description` and
      `image_url` (null when absent) and the resolved culture name. */
  function PlatItem(r: Record, cultureName: Json): Json {
    Obj([
      ("nom", Get(r.fields, "nom")),
      ("description", Get(r.fields, "description")),
      ("image_url", Get(r.fields, "image_url")),
      ("culture", cultureName)
    ])
  }

  function Projected(chosen: seq<Record>, cultureName: Json): seq<Json> {
    seq(|chosen|, i requires 0 <= i < |chosen| => PlatItem(chosen[i], cultureName))
  }

  /** Every item has exactly the keys `nom`, `description`, `image_url` and
      `culture`; the first three copy the dish's fields, null when the dish
      lacks them, and `culture` is always the resolved culture name. */
  lemma PlatItemShape(r: Record, cultureName: Json)
    ensures var item := PlatItem(r, cultureName);
      && Keys(item.members) == ["nom", "description", "image_url", "culture"]
      && Member(item, "nom") == (if "nom" in r.fields then r.fields["nom"] else Null)
      && Member(item, "description") == (if "description" in r.fields then r.fields["description"] else Null)
      && Member(item, "image_url") == (if "image_url" in r.fields then r.fields["image_url"] else Null)
      && Member(item, "culture") == cultureName
  {
    var ms := PlatItem(r, cultureName).members;
    FindFirst(ms, "nom", 0);
    FindFirst(ms, "description", 1);
    FindFirst(ms, "image_url", 2);
    FindFirst(ms, "culture", 3);
  }

  /** The `for r in choisis` loop that appends one item per chosen dish. */
  method ProjectPlats(choisis: seq<Record>, cultureName: Json) returns (out: seq<Json>)
    ensures |out| == |choisis|
    ensures forall i :: 0 <= i < |choisis| ==> out[i] == PlatItem(choisis[i], cultureName)
  {
    out := [];
    for k := 0 to |choisis|
      invariant |out| == k
      invariant forall i :: 0 <= i < k ==> out[i] == PlatItem(choisis[i], cultureName)
    {
      var f := choisis[k].fields;
      out := out + [Obj([
        ("nom", Get(f, "nom")),
        ("description", Get(f, "description")),
        ("image_url", Get(f, "image_url")),
        ("culture", cultureName)
      ])];
    }
  }

  /** The first `n` elements of a list are some of its elements. */
  lemma PrefixSubMultiset<T>(s: seq<T>, n: nat)
    requires n <= |s|
    ensures multiset(s[..n]) <= multiset(s)
    ensures Distinct(s) ==> Distinct(s[..n])
  {
    assert s == s[..n] + s[n..];
  }

  /** The dishes kept after the shuffle: `plats_records[:3]`. */
  function Chosen(records: seq<Record>, draws: seq<nat>): seq<Record>
    requires |draws| == |records|
  {
    Shuffled(records, draws)[..Min(3, |records|)]
  }

  /** The answer once dishes were found: shuffle them in place, keep the
      first three, and project each. The answer has min(3, N) items, taken from
      distinct positions of the shuffled list, each the projection of one
      kept dish. */
  method ServePlats(records: seq<Record>, draws: seq<nat>, cultureName: Json) returns (out: seq<Json>)
    requires |draws| == |records|
    ensures out == Projected(Chosen(records, draws), cultureName)
    ensures |out| == |Chosen(records, draws)| == Min(3, |records|)
    ensures multiset(Chosen(records, draws)) <= multiset(records)
    ensures Distinct(records) ==> Distinct(Chosen(records, draws))
  {
    var a := new Record[|records|](i requires 0 <= i < |records| => records[i]);
    assert a[..] == records;
    Shuffle(a, draws);
    var choisis := a[..Min(3, a.Length)];
    ShuffledPermutes(records, draws);
    PrefixSubMultiset(a[..], Min(3, a.Length));
    assert choisis == a[..][..Min(3, a.Length)];
    out := ProjectPlats(choisis, cultureName);
    assert out == Projected(choisis, cultureName);
  }

  /** `get_plats`, given the table names, the `submission_id` query
      argument, the answers Airtable would give to the lookup and to the
      search, and the draws of the shuffle. It returns the queries sent, in
      order, and the reply. */
  method GetPlats(cfg: Config, arg: Option<string>, tally: Fetch, plats: Fetch, draws: seq<nat>)
    returns (sent: seq<Query>, reply: Reply)
    requires plats.Fetched? ==> |draws| == |plats.records|
    // a blank id is refused before any lookup
    ensures RequestedId(arg) == "" ==> sent == [] && reply == ErrorReply(400, "missing submission_id")
    // otherwise the first query is the lookup of the stripped, unescaped id
    ensures RequestedId(arg) != "" ==> 1 <= |sent| <= 2 && sent[0] == TallyQuery(cfg, RequestedId(arg))
    ensures RequestedId(arg) != "" && tally.HttpError? ==>
      |sent| == 1 && reply == ErrorReply(502, "Airtable error (Tally): " + tally.message)
    ensures RequestedId(arg) != "" && tally.Fetched? && tally.records == [] ==>
      |sent| == 1 && reply == ErrorReply(404, "submission_id not found")
    // the culture of the submission decides the search
    ensures Found(arg, tally) ==>
      var fields := SubmissionFields(tally);
      var culture := Get(fields, "culture");
      var name := Get(fields, "culture_name");
      && (!Truthy(culture) ==>
            |sent| == 1 && reply == ErrorReply(422, "culture missing on submission"))
      && (Truthy(culture) && culture.Str? ==>
            |sent| == 2 && sent[1] == PlatsQuery(cfg, "{culture}='" + culture.s + "'"))
      && (Truthy(culture) && culture.Arr? && !Truthy(name) ==>
            |sent| == 1 && reply == ErrorReply(422, "culture_name missing for linked record model"))
      && (Truthy(culture) && culture.Arr? && Truthy(name) ==>
            |sent| == 2 && sent[1] == PlatsQuery(cfg, "FIND('" + PyStr(name) + "', ARRAYJOIN({culture}))"))
      && (Truthy(culture) && !culture.Str? && !culture.Arr? ==>
            |sent| == 1 && reply == Crash("UnboundLocalError: plats_filter"))
    // the search's answer decides the reply
    ensures |sent| == 2 ==> Found(arg, tally)
    ensures Found(arg, tally) && |sent| == 2 ==>
      var name := CultureName(SubmissionFields(tally));
      && (plats.HttpError? ==> reply == ErrorReply(502, "Airtable error (Plats): " + plats.message))
      && (plats.Fetched? && plats.records == [] ==>
            reply == ErrorReply(404, "No dishes found for culture '" + PyStr(name) + "'"))
      && (plats.Fetched? && plats.records != [] ==>
            var chosen := Chosen(plats.records, draws);
            && reply == Reply(200, Arr(Projected(chosen, name)))
            && |chosen| == Min(3, |plats.records|)
            && multiset(chosen) <= multiset(plats.records)
            && (Distinct(plats.records) ==> Distinct(chosen)))
    // a list of dishes is only ever the answer on that path
    ensures reply.Reply? && reply.status == 200 ==> |sent| == 2 && plats.Fetched? && plats.records != []
  {
    var id := RequestedId(arg);
    if id == "" {
      sent, reply := [], ErrorReply(400, "missing submission_id");
      return;
    }
    sent := [Query(cfg.tallyTable, [("filterByFormula", Str("{submission_id}='" + id + "'")), ("maxRecords", Number(1))])];
    if tally.HttpError? {
      reply := ErrorReply(502, "Airtable error (Tally): " + tally.message);
      return;
    }
    if tally.records == [] {
      reply := ErrorReply(404, "submission_id not found");
      return;
    }
    var fields := tally.records[0].fields;
    var culture := Get(fields, "culture");
    if !Truthy(culture) {
      reply := ErrorReply(422, "culture missing on submission");
      return;
    }
    var cultureName: Json;
    var filter: string;
    if culture.Str? {
      cultureName := culture;
      filter := "{culture}='" + culture.s + "'";
    } else if culture.Arr? {
      cultureName := Get(fields, "culture_name");
      if !Truthy(cultureName) {
        reply := ErrorReply(422, "culture_name missing for linked record model");
        return;
      }
      filter := "FIND('" + PyStr(cultureName) + "', ARRAYJOIN({culture}))";
    } else {
      // `plats_filter` was never assigned
      reply := Crash("UnboundLocalError: plats_filter");
      return;
    }
    sent := sent + [Query(cfg.platsTable, [("filterByFormula", Str(filter)), ("pageSize", Number(50))])];
    if plats.HttpError? {
      reply := ErrorReply(502, "Airtable error (Plats): " + plats.message);
      return;
    }
    var records := plats.records;
    if records == [] {
      reply := ErrorReply(404, "No dishes found for culture '" + PyStr(cultureName) + "'");
      return;
    }
    var out := ServePlats(records, draws, cultureName);
    reply := Reply(200, Arr(out));
  }
}
