/**
 * The large-scale indexer's HTTP handlers (`flask_main.py`): indexing a stored sample,
 * hashing samples for a search, and merging the per-modality matches into one record
 * per pseudonymous id. The comparators behind each modality are parameters.
 */
module IndexerApi {
  import opened Wrappers
  import opened Strings
  import opened Json

  /** Python truthiness of a JSON value. */
  predicate Truthy(v: Json)
  {
    match v
    case JNull => false
    case JBool(b) => b
    case JInt(i) => i != 0
    case JReal(r) => r != 0.0
    case JStr(s) => s != ""
    case JArr(items) => |items| > 0
    case JObj(fields) => |fields| > 0
  }

  /** Python `str.capitalize()`: the first character upper case, the rest lower case. */
  function Capitalize(s: string): (r: string)
    ensures |r| == |s|
    ensures |s| > 0 ==> r[0] == UpperChar(s[0]) && r[1..] == Lower(s[1..])
  {
    if |s| == 0 then "" else [UpperChar(s[0])] + Lower(s[1..])
  }

  datatype Modality = Face | Voice | Fingerprint

  /** The index call a request is dispatched to, by its upper-cased biometric type. */
  function ModalityOf(biometricType: string): (r: Option<Modality>)
    ensures r == Some(Face) <==> biometricType == "IMAGE"
    ensures r == Some(Voice) <==> biometricType == "VOICE"
    ensures r == Some(Fingerprint) <==> biometricType == "FINGERPRINT"
  {
    if biometricType == "IMAGE" then Some(Face)
    else if biometricType == "VOICE" then Some(Voice)
    else if biometricType == "FINGERPRINT" then Some(Fingerprint)
    else None
  }

  /**
   * `index_local_data`. A missing type reads as "" and a missing owner raises (upper-casing
   * None). A type that is not IMAGE, VOICE or FINGERPRINT, or a falsy URL, is refused with
   * 400; otherwise the matching index call is made (`dispatched`) and, whether or not it
   * raised, the reply is 200 with the suspect id and the capitalised type.
   */
  function IndexLocalData(suspectId: Json, biometricType: Option<string>, bioUrl: Json, owner: Option<string>)
    : (r: (Reply, Option<Modality>))
    ensures owner.None? ==> r == (Reply(500, JObj(map["error" := JStr("An error occurred")])), None)
    ensures owner.Some? ==>
      var t := Upper(if biometricType.Some? then biometricType.value else "");
      (r.1.Some? <==> ModalityOf(t).Some? && Truthy(bioUrl))
      && (r.1.Some? ==> r.1 == ModalityOf(t)
                        && r.0 == Reply(200, JObj(map["criminal_id" := suspectId,
                                                      "biometric_type_stored" := JStr(Capitalize(t))])))
      && (r.1.None? ==> r.0.status == 400)
  {
    var t := Upper(if biometricType.Some? then biometricType.value else "");
    if owner.None? then (Reply(500, JObj(map["error" := JStr("An error occurred")])), None)
    else
      var modality := ModalityOf(t);
      if modality.Some? && Truthy(bioUrl) then
        (Reply(200, JObj(map["criminal_id" := suspectId, "biometric_type_stored" := JStr(Capitalize(t))])), modality)
      else
        (Reply(400, JObj(map["error" := JStr("Unsupported or missing biometric type or URL")])), None)
  }

  /** The hash computations of the search: None when the computation raises or returns None. */
  datatype Hashers = Hashers(face: Json -> Option<(Json, Json)>,   // hash representation and bound
                             voice: Json -> Option<Json>,
                             fingerprint: Json -> Option<Json>)

  /** `dict.get(key, default)`. */
  function GetOr(fields: map<string, Json>, key: string, default: Json): (r: Json)
    ensures key in fields ==> r == fields[key]
    ensures key !in fields ==> r == default
  {
    if key in fields then fields[key] else default
  }

  /** The `type` object echoed back: each flag as sent, False where absent. */
  function ResponseType(flags: map<string, Json>): (r: map<string, Json>)
    ensures r.Keys == {"IMAGE", "FINGERPRINT", "VOICE"}
    ensures r["IMAGE"] == (if "image" in flags then flags["image"] else JBool(false))
    ensures r["FINGERPRINT"] == (if "fingerprint" in flags then flags["fingerprint"] else JBool(false))
    ensures r["VOICE"] == (if "voice" in flags then flags["voice"] else JBool(false))
  {
    map["IMAGE" := GetOr(flags, "image", JBool(false)), "FINGERPRINT" := GetOr(flags, "fingerprint", JBool(false)),
        "VOICE" := GetOr(flags, "voice", JBool(false))]
  }

  /** A modality is hashed when its flag is truthy and its URL is present and truthy. */
  predicate Requested(data: map<string, Json>, flag: Json, urlKey: string)
  {
    Truthy(flag) && urlKey in data && Truthy(data[urlKey])
  }

  /**
   * `calculateHashForSearching`: a request without a `type` object fails with 500;
   * otherwise 200 with the echoed flags and, per modality, the hash when it was
   * requested and computed, or [] when it was not.
   */
  function CalculateHashForSearching(h: Hashers, data: map<string, Json>): (r: Reply)
    ensures !("type" in data && data["type"].JObj?) ==> r.status == 500
    ensures "type" in data && data["type"].JObj? ==>
      var t := ResponseType(data["type"].fields);
      var face := if Requested(data, t["IMAGE"], "full_facial_image_url") then h.face(data["full_facial_image_url"]) else None;
      var voice := if Requested(data, t["VOICE"], "full_voice_url") then h.voice(data["full_voice_url"]) else None;
      var finger := if Requested(data, t["FINGERPRINT"], "full_fingerprint_url") then h.fingerprint(data["full_fingerprint_url"]) else None;
      && r.status == 200 && r.body.JObj?
      && r.body.fields.Keys == {"type", "face", "voice", "fingerprint", "bound"}
      && r.body.fields["type"] == JObj(t)
      && r.body.fields["face"] == (if face.Some? then face.value.0 else JArr([]))
      && r.body.fields["bound"] == (if face.Some? then face.value.1 else JArr([]))
      && r.body.fields["voice"] == (if voice.Some? then voice.value else JArr([]))
      && r.body.fields["fingerprint"] == (if finger.Some? then finger.value else JArr([]))
  {
    if !("type" in data && data["type"].JObj?) then Reply(500, JObj(map["error" := JStr("An error occurred")]))
    else
      var t := ResponseType(data["type"].fields);
      var face := if Requested(data, t["IMAGE"], "full_facial_image_url") then h.face(data["full_facial_image_url"]) else None;
      var voice := if Requested(data, t["VOICE"], "full_voice_url") then h.voice(data["full_voice_url"]) else None;
      var finger := if Requested(data, t["FINGERPRINT"], "full_fingerprint_url") then h.fingerprint(data["full_fingerprint_url"]) else None;
      Reply(200, JObj(map["type" := JObj(t),
                          "face" := if face.Some? then face.value.0 else JArr([]),
                          "voice" := if voice.Some? then voice.value else JArr([]),
                          "fingerprint" := if finger.Some? then finger.value else JArr([]),
                          "bound" := if face.Some? then face.value.1 else JArr([])]))
  }

  // ---------------------------------------------------------------------------
  // Merging the matches of `searchForMatches`.

  /** One match of a comparator: the id as text (`str(id)`) and its score. */
  type Match = (string, Json)

  datatype Scores = Scores(face: Json, voice: Json, fingerprint: Json)

  function Score(s: Scores, m: Modality): Json
  {
    match m
    case Face => s.face
    case Voice => s.voice
    case Fingerprint => s.fingerprint
  }

  function WithScore(s: Scores, m: Modality, v: Json): (r: Scores)
    ensures Score(r, m) == v && forall m' | m' != m :: Score(r, m') == Score(s, m')
  {
    match m
    case Face => s.(face := v)
    case Voice => s.(voice := v)
    case Fingerprint => s.(fingerprint := v)
  }

  /** A new record: the modality's score, 0 for the other two. */
  function Fresh(m: Modality, v: Json): (r: Scores)
    ensures Score(r, m) == v && forall m' | m' != m :: Score(r, m') == JInt(0)
  {
    WithScore(Scores(JInt(0), JInt(0), JInt(0)), m, v)
  }

  /** The dict of records: its keys in insertion order, and the scores per key. */
  datatype Table = Table(order: seq<string>, scores: map<string, Scores>)

  ghost predicate WellFormed(t: Table)
  {
    (forall i, j | 0 <= i < j < |t.order| :: t.order[i] != t.order[j])
    && (forall p :: p in t.scores <==> p in t.order)
  }

  /**
   * One match merged in: a new id gets a fresh record; an existing one has its score
   * for the modality overwritten, except for faces, where the first occurrence wins.
   */
  function Step(m: Modality, t: Table, x: Match): Table
  {
    var (p, v) := x;
    if p in t.scores then
      if m == Face then t else Table(t.order, t.scores[p := WithScore(t.scores[p], m, v)])
    else Table(t.order + [p], t.scores[p := Fresh(m, v)])
  }

  /** A modality's matches merged in, in list order. */
  function Absorbed(m: Modality, t: Table, ms: seq<Match>): Table
  {
    if |ms| == 0 then t else Step(m, Absorbed(m, t, ms[..|ms| - 1]), ms[|ms| - 1])
  }

  /** The matches of a modality that contributes: it produced ids and a non-empty score list. */
  function Contributing(ms: Option<seq<Match>>): seq<Match>
  {
    if ms.Some? then ms.value else []
  }

  /** The records `searchForMatches` answers with, in first-insertion order. */
  function Merged(face: Option<seq<Match>>, voice: Option<seq<Match>>, fingerprint: Option<seq<Match>>): Table
  {
    var t0 := Table([], map[]);
    Absorbed(Fingerprint, Absorbed(Voice, Absorbed(Face, t0, Contributing(face)), Contributing(voice)), Contributing(fingerprint))
  }

  /** A record as the JSON object listed. */
  function RecordJson(p: string, s: Scores): Json
  {
    JObj(map["pseudo_id" := JStr(p),
             "scores" := JObj(map["face" := s.face, "voice" := s.voice, "fingerprint" := s.fingerprint])])
  }

  function Listed(t: Table): (r: seq<Json>)
    requires forall p | p in t.order :: p in t.scores
    ensures |r| == |t.order|
  {
    seq(|t.order|, i requires 0 <= i < |t.order| => RecordJson(t.order[i], t.scores[t.order[i]]))
  }

  lemma {:induction false} StepWellFormed(m: Modality, t: Table, x: Match)
    requires WellFormed(t)
    ensures WellFormed(Step(m, t, x))
  {
  }

  lemma {:induction false} AbsorbedWellFormed(m: Modality, t: Table, ms: seq<Match>)
    requires WellFormed(t)
    ensures WellFormed(Absorbed(m, t, ms))
  {
    if |ms| > 0 {
      AbsorbedWellFormed(m, t, ms[..|ms| - 1]);
      StepWellFormed(m, Absorbed(m, t, ms[..|ms| - 1]), ms[|ms| - 1]);
    }
  }

  /** `searchForMatches`' merge: three loops filling the dict, then its values in order. */
  method SearchForMatches(face: Option<seq<Match>>, voice: Option<seq<Match>>, fingerprint: Option<seq<Match>>)
    returns (records: seq<Json>)
    ensures WellFormed(Merged(face, voice, fingerprint))
    ensures records == Listed(Merged(face, voice, fingerprint))
  {
    var t := Table([], map[]);
    if face.Some? && |face.value| > 0 {
      t := Absorb(Face, t, face.value);
    }
    if voice.Some? && |voice.value| > 0 {
      t := Absorb(Voice, t, voice.value);
    }
    if fingerprint.Some? && |fingerprint.value| > 0 {
      t := Absorb(Fingerprint, t, fingerprint.value);
    }
    AbsorbedWellFormed(Face, Table([], map[]), Contributing(face));
    AbsorbedWellFormed(Voice, Absorbed(Face, Table([], map[]), Contributing(face)), Contributing(voice));
    AbsorbedWellFormed(Fingerprint, Absorbed(Voice, Absorbed(Face, Table([], map[]), Contributing(face)), Contributing(voice)),
                       Contributing(fingerprint));
    records := Listed(t);
  }

  /** One of the three loops. */
  method Absorb(m: Modality, t0: Table, ms: seq<Match>) returns (t: Table)
    ensures t == Absorbed(m, t0, ms)
  {
    t := t0;
    for i := 0 to |ms|
      invariant t == Absorbed(m, t0, ms[..i])
    {
      assert ms[..i + 1][..i] == ms[..i];
      var (p, v) := ms[i];
      if p in t.scores {
        if m != Face {
          t := Table(t.order, t.scores[p := WithScore(t.scores[p], m, v)]);
        }
      } else {
        t := Table(t.order + [p], t.scores[p := Fresh(m, v)]);
      }
    }
    assert ms[..|ms|] == ms;
  }

  // ---------------------------------------------------------------------------
  // What the merged records mean.

  function Ids(ms: seq<Match>): (r: seq<string>)
    ensures |r| == |ms| && forall i | 0 <= i < |ms| :: r[i] == ms[i].0
  {
    if |ms| == 0 then [] else Ids(ms[..|ms| - 1]) + [ms[|ms| - 1].0]
  }

  /** The score of the first match for id p. */
  function FirstScore(ms: seq<Match>, p: string): Json
    requires p in Ids(ms)
  {
    if ms[0].0 == p then ms[0].1 else FirstScore(ms[1..], p)
  }

  /** The score of the last match for id p. */
  function LastScore(ms: seq<Match>, p: string): Json
    requires p in Ids(ms)
  {
    if ms[|ms| - 1].0 == p then ms[|ms| - 1].1 else LastScore(ms[..|ms| - 1], p)
  }

  lemma {:induction false} FirstScoreOfPrefix(ms: seq<Match>, n: nat, p: string)
    requires n <= |ms| && p in Ids(ms[..n])
    ensures p in Ids(ms) && FirstScore(ms[..n], p) == FirstScore(ms, p)
  {
    assert Ids(ms[..n])[0] == ms[0].0;
    if ms[0].0 != p {
      assert ms[..n][1..] == ms[1..][..n - 1];
      assert p in Ids(ms[1..][..n - 1]) by {
        var k :| 0 <= k < n && Ids(ms[..n])[k] == p;
        assert Ids(ms[1..][..n - 1])[k - 1] == p;
      }
      FirstScoreOfPrefix(ms[1..], n - 1, p);
    }
  }

  /**
   * The scores a record holds, for any table it is merged into: for faces an id already
   * present keeps its record and a new one gets the score of its first match; for
   * voice and fingerprint the score of the id's last match overwrites that modality's
   * score. Ids without matches are untouched.
   */
  lemma {:induction false} AbsorbedScores(m: Modality, t: Table, ms: seq<Match>, p: string)
    ensures p in Absorbed(m, t, ms).scores <==> p in t.scores || p in Ids(ms)
    ensures p !in Ids(ms) && p in t.scores ==> Absorbed(m, t, ms).scores[p] == t.scores[p]
    ensures p in Ids(ms) && m == Face ==>
      Absorbed(m, t, ms).scores[p] == if p in t.scores then t.scores[p] else Fresh(Face, FirstScore(ms, p))
    ensures p in Ids(ms) && m != Face ==>
      Absorbed(m, t, ms).scores[p]
        == WithScore(if p in t.scores then t.scores[p] else Scores(JInt(0), JInt(0), JInt(0)), m, LastScore(ms, p))
  {
    if |ms| > 0 {
      var prefix := ms[..|ms| - 1];
      var (q, v) := ms[|ms| - 1];
      AbsorbedScores(m, t, prefix, p);
      assert Ids(ms) == Ids(prefix) + [q];
      if p in Ids(prefix) && m == Face {
        FirstScoreOfPrefix(ms, |ms| - 1, p);
      } else if m == Face && p == q {
        FirstNotBefore(ms, p);
      }
    }
  }

  /** When p occurs only last, its first match is the last one. */
  lemma {:induction false} FirstNotBefore(ms: seq<Match>, p: string)
    requires |ms| > 0 && ms[|ms| - 1].0 == p && p !in Ids(ms[..|ms| - 1])
    ensures FirstScore(ms, p) == ms[|ms| - 1].1
  {
    if |ms| > 1 {
      assert Ids(ms[..|ms| - 1])[0] == ms[0].0;
      assert ms[1..][..|ms| - 2] == ms[..|ms| - 1][1..];
      FirstNotBefore(ms[1..], p);
    }
  }

  /**
   * The merged record of an id: it exists iff some modality matched it; its face score
   * is that of its first face match, its voice and fingerprint scores those of its last
   * match in each list, and every score it was not matched on is 0.
   */
  lemma MergedScores(face: seq<Match>, voice: seq<Match>, fingerprint: seq<Match>, p: string)
    ensures var t := Merged(Some(face), Some(voice), Some(fingerprint));
      && (p in t.scores <==> p in Ids(face) || p in Ids(voice) || p in Ids(fingerprint))
      && (p in t.scores ==>
            && t.scores[p].face == (if p in Ids(face) then FirstScore(face, p) else JInt(0))
            && t.scores[p].voice == (if p in Ids(voice) then LastScore(voice, p) else JInt(0))
            && t.scores[p].fingerprint == (if p in Ids(fingerprint) then LastScore(fingerprint, p) else JInt(0)))
  {
    var t0 := Table([], map[]);
    var t1 := Absorbed(Face, t0, face);
    var t2 := Absorbed(Voice, t1, voice);
    AbsorbedScores(Face, t0, face, p);
    AbsorbedScores(Voice, t1, voice, p);
    AbsorbedScores(Fingerprint, t2, fingerprint, p);
  }

  lemma {:induction false} AbsorbedOrder(m: Modality, t: Table, before: seq<string>, ms: seq<Match>)
    requires WellFormed(t) && t.order == Dedup(before)
    ensures Absorbed(m, t, ms).order == Dedup(before + Ids(ms))
  {
    if |ms| > 0 {
      var prefix := ms[..|ms| - 1];
      AbsorbedOrder(m, t, before, prefix);
      AbsorbedWellFormed(m, t, prefix);
      var xs := before + Ids(ms);
      assert xs[..|xs| - 1] == before + Ids(prefix);
      DedupMembers(before + Ids(prefix));
    } else {
      assert before + Ids(ms) == before;
    }
  }

  /** Records are listed in the order their ids were first matched: faces, then voices, then fingerprints. */
  lemma MergedOrder(face: seq<Match>, voice: seq<Match>, fingerprint: seq<Match>)
    ensures Merged(Some(face), Some(voice), Some(fingerprint)).order == Dedup(Ids(face) + Ids(voice) + Ids(fingerprint))
  {
    var t0 := Table([], map[]);
    assert t0.order == Dedup([]);
    AbsorbedOrder(Face, t0, [], face);
    AbsorbedWellFormed(Face, t0, face);
    var t1 := Absorbed(Face, t0, face);
    assert [] + Ids(face) == Ids(face);
    AbsorbedOrder(Voice, t1, Ids(face), voice);
    AbsorbedWellFormed(Voice, t1, voice);
    AbsorbedOrder(Fingerprint, Absorbed(Voice, t1, voice), Ids(face) + Ids(voice), fingerprint);
  }

  /** A modality that did not run, raised or found nothing adds no record. */
  lemma SilentModality(voice: Option<seq<Match>>, fingerprint: Option<seq<Match>>)
    ensures Merged(None, voice, fingerprint) == Merged(Some([]), voice, fingerprint)
  {
  }
}
