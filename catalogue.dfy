/**
 * The search catalogues of the indexer's voice and fingerprint comparators
 * (`voice_comparator.py`, `finger_comparator.py`, which share this code line for line):
 * one line per indexed sample, `<id> <encrypted code> <sensitivity>`, searched by the
 * similarity of each visible line's code to the query, keeping the best score per id
 * and returning the top of the ranking. The upload of an updated catalogue and its
 * URL are shared with the face comparator (`comparator.py`).
 */
module Catalogue {
  import opened Wrappers
  import opened Strings

  /** A catalogue line's content. */
  datatype Entry = Entry(name: string, code: string, sensitive: bool)

  /** What the search makes of a line: skipped, raising on unpacking, or an entry. */
  datatype Parsed = Skipped | Unpackable | Listed(entry: Entry)

  /**
   * A line stripped and split on single spaces: blank lines and lines of fewer than
   * three fields are skipped, more than three cannot be unpacked, and the entry is
   * sensitive when its third field, stripped and lower-cased, is "true".
   */
  function ParseSpaced(line: string): (r: Parsed)
    ensures var parts := Fields(Strip(line), ' ');
      && (r == Skipped <==> Strip(line) == "" || |parts| < 3)
      && (r == Unpackable <==> Strip(line) != "" && |parts| > 3)
      && (r.Listed? ==> r.entry == Entry(parts[0], parts[1], Lower(Strip(parts[2])) == "true"))
  {
    var l := Strip(line);
    if l == "" then Skipped
    else
      var parts := Fields(l, ' ');
      if |parts| < 3 then Skipped
      else if |parts| > 3 then Unpackable
      else Listed(Entry(parts[0], parts[1], Lower(Strip(parts[2])) == "true"))
  }

  /** Python's rendering of a boolean, as an f-string writes the sensitivity flag. */
  function PyBool(b: bool): string
  {
    if b then "True" else "False"
  }

  /** The line `indexVoice` and `indexFinger` append: `f"{suspect_id} {encrypted_codes} {sensitivity}"`. */
  function SpacedLine(name: string, code: string, sensitive: bool): string
  {
    name + " " + code + " " + PyBool(sensitive)
  }

  predicate NoSpace(s: string)
  {
    forall i | 0 <= i < |s| :: !IsPySpace(s[i])
  }

  /** Text without whitespace is left alone by `strip()`. */
  lemma StripNoSpace(s: string)
    requires NoSpace(s)
    ensures Strip(s) == s
  {
    assert StripStart(s) == s;
    assert StripEnd(s) == s;
  }

  /** The written flags, lower-cased, are "true" and something else. */
  lemma LowerFlags()
    ensures Lower(PyBool(true)) == "true" && Lower(PyBool(false)) != "true"
  {
    var t := Lower("True");
    assert t[0] == 't' && t[1] == 'r' && t[2] == 'u' && t[3] == 'e';
    assert |Lower("False")| == 5;
  }

  /** The written flags, stripped and lower-cased, are "true" and something else. */
  lemma FlagsReadBack()
    ensures Lower(Strip(PyBool(true))) == "true" && Lower(Strip(PyBool(false))) != "true"
  {
    assert NoSpace("True") && NoSpace("False");
    StripNoSpace("True");
    StripNoSpace("False");
    LowerFlags();
  }

  /**
   * An indexed line reads back as the entry it was written from, sensitivity included,
   * when the id is non-empty and neither id nor code holds whitespace.
   */
  lemma SpacedRoundTrip(name: string, code: string, sensitive: bool)
    requires |name| > 0 && NoSpace(name) && NoSpace(code)
    ensures ParseSpaced(SpacedLine(name, code, sensitive)) == Listed(Entry(name, code, sensitive))
  {
    var fs := [name, code, PyBool(sensitive)];
    SpacedLineJoined(name, code, sensitive);
    SpacedLineStripped(name, code, sensitive);
    assert ' ' !in name && ' ' !in code by {
      assert IsPySpace(' ');
    }
    FieldsOfJoin(fs, ' ');
    FlagsReadBack();
  }

  /** The line is its three fields joined by single spaces. */
  lemma SpacedLineJoined(name: string, code: string, sensitive: bool)
    ensures SpacedLine(name, code, sensitive) == Join([name, code, PyBool(sensitive)], ' ')
  {
    var flag := PyBool(sensitive);
    var fs := [name, code, flag];
    assert fs[1..] == [code, flag] && fs[1..][1..] == [flag];
    assert Join([flag], ' ') == flag;
    assert Join([code, flag], ' ') == code + " " + flag;
  }

  /** A line that starts with a non-empty id and ends with the flag has nothing to strip. */
  lemma SpacedLineStripped(name: string, code: string, sensitive: bool)
    requires |name| > 0 && NoSpace(name)
    ensures Strip(SpacedLine(name, code, sensitive)) == SpacedLine(name, code, sensitive)
  {
    var line := SpacedLine(name, code, sensitive);
    assert line[0] == name[0];
    assert line[|line| - 1] == 'e';
    assert StripStart(line) == line;
    assert StripEnd(line) == line;
  }

  /** The similarity service: the score of a stored code for the query, None when the request raises. */
  type Similarity = (string, string) -> Option<real>

  /**
   * The (id, similarity) pairs of the lines read so far, in catalogue order; the search
   * fails at the first line that cannot be unpacked or whose similarity request raises.
   * Sensitive entries are left out unless the requester (`originator`) is the holder (`lea`).
   */
  function Scored(sim: Similarity, hashcode: string, originator: string, lea: string, lines: seq<string>)
    : Result<seq<(string, real)>>
  {
    if |lines| == 0 then Ok([])
    else
      match Scored(sim, hashcode, originator, lea, lines[..|lines| - 1])
      case Err(e) => Err(e)
      case Ok(ps) => ScoreLine(sim, hashcode, originator, lea, ps, lines[|lines| - 1])
  }

  /** One line of the search read after the pairs `ps`. */
  function ScoreLine(sim: Similarity, hashcode: string, originator: string, lea: string,
                     ps: seq<(string, real)>, line: string): Result<seq<(string, real)>>
  {
    match ParseSpaced(line)
    case Skipped => Ok(ps)
    case Unpackable => Err("ValueError")
    case Listed(e) =>
      if e.sensitive && originator != lea then Ok(ps)
      else
        match sim(hashcode, e.code)
        case None => Err("RequestException")
        case Some(s) => Ok(ps + [(e.name, s)])
  }

  /** The search after one more line, from the search of the lines before it. */
  lemma ScoredNext(sim: Similarity, hashcode: string, originator: string, lea: string, lines: seq<string>, i: nat)
    requires i < |lines| && Scored(sim, hashcode, originator, lea, lines[..i]).Ok?
    ensures Scored(sim, hashcode, originator, lea, lines[..i + 1])
      == ScoreLine(sim, hashcode, originator, lea, Scored(sim, hashcode, originator, lea, lines[..i]).value, lines[i])
  {
    assert lines[..i + 1][..i] == lines[..i];
  }

  /** Once a line has failed the search, the lines after it change nothing. */
  lemma {:induction false} ScoredFailureSticks(sim: Similarity, hashcode: string, originator: string, lea: string,
                                               lines: seq<string>, i: nat, e: string)
    requires i <= |lines| && Scored(sim, hashcode, originator, lea, lines[..i]) == Err(e)
    ensures Scored(sim, hashcode, originator, lea, lines) == Err(e)
    decreases |lines| - i
  {
    if i == |lines| {
      assert lines[..i] == lines;
    } else {
      assert lines[..i + 1][..i] == lines[..i];
      ScoredFailureSticks(sim, hashcode, originator, lea, lines, i + 1, e);
    }
  }

  /** A sensitive line is invisible to any requester other than its holder. */
  lemma SensitiveLineHidden(sim: Similarity, hashcode: string, originator: string, lea: string,
                            lines: seq<string>, line: string)
    requires ParseSpaced(line).Listed? && ParseSpaced(line).entry.sensitive && originator != lea
    ensures Scored(sim, hashcode, originator, lea, lines + [line]) == Scored(sim, hashcode, originator, lea, lines)
  {
    assert (lines + [line])[..|lines|] == lines;
  }

  /** Every visible line of a successful search contributes its id and similarity. */
  lemma {:induction false} ScoredIncludes(sim: Similarity, hashcode: string, originator: string, lea: string,
                                          lines: seq<string>, j: nat)
    requires j < |lines| && ParseSpaced(lines[j]).Listed?
    requires var e := ParseSpaced(lines[j]).entry; !e.sensitive || originator == lea
    requires Scored(sim, hashcode, originator, lea, lines).Ok?
    ensures var e := ParseSpaced(lines[j]).entry;
      && sim(hashcode, e.code).Some?
      && (e.name, sim(hashcode, e.code).value) in Scored(sim, hashcode, originator, lea, lines).value
  {
    var prefix := lines[..|lines| - 1];
    ScoredExtends(sim, hashcode, originator, lea, lines);
    if j < |lines| - 1 {
      assert prefix[j] == lines[j];
      ScoredIncludes(sim, hashcode, originator, lea, prefix, j);
    } else {
      ScoredLast(sim, hashcode, originator, lea, lines, ParseSpaced(lines[j]).entry);
    }
  }

  /** A visible last line of a successful search contributes the last pair. */
  lemma ScoredLast(sim: Similarity, hashcode: string, originator: string, lea: string, lines: seq<string>, e: Entry)
    requires |lines| > 0 && ParseSpaced(lines[|lines| - 1]) == Listed(e)
    requires !e.sensitive || originator == lea
    requires Scored(sim, hashcode, originator, lea, lines).Ok?
    ensures sim(hashcode, e.code).Some?
    ensures (e.name, sim(hashcode, e.code).value) in Scored(sim, hashcode, originator, lea, lines).value
  {
    var ps := Scored(sim, hashcode, originator, lea, lines).value;
    assert ps[|ps| - 1] == (e.name, sim(hashcode, e.code).value);
  }

  /** A successful search extends the pairs of the lines before the last one. */
  lemma ScoredExtends(sim: Similarity, hashcode: string, originator: string, lea: string, lines: seq<string>)
    requires |lines| > 0 && Scored(sim, hashcode, originator, lea, lines).Ok?
    ensures var prefix := lines[..|lines| - 1];
      && Scored(sim, hashcode, originator, lea, prefix).Ok?
      && Scored(sim, hashcode, originator, lea, prefix).value <= Scored(sim, hashcode, originator, lea, lines).value
  {
  }

  /** The filenames seen and the best similarity of each (`filenames`, `distances`). */
  datatype Best = Best(names: seq<string>, scores: seq<real>)

  /** `list.index`: the first position of x. */
  function FirstIndex(xs: seq<string>, x: string): (r: nat)
    requires x in xs
    ensures r < |xs| && xs[r] == x && x !in xs[..r]
  {
    if xs[0] == x then 0 else assert xs == [xs[0]] + xs[1..]; 1 + FirstIndex(xs[1..], x)
  }

  /** One scored line kept: a new name is appended; a known one keeps the larger score. */
  function Keep(b: Best, name: string, similarity: real): Best
    requires |b.names| == |b.scores|
  {
    if name !in b.names then Best(b.names + [name], b.scores + [similarity])
    else
      var k := FirstIndex(b.names, name);
      if similarity > b.scores[k] then Best(b.names, b.scores[k := similarity]) else b
  }

  function BestOf(ps: seq<(string, real)>): (b: Best)
    ensures |b.names| == |b.scores|
  {
    if |ps| == 0 then Best([], []) else Keep(BestOf(ps[..|ps| - 1]), ps[|ps| - 1].0, ps[|ps| - 1].1)
  }

  lemma BestOfSnoc(ps: seq<(string, real)>, p: (string, real))
    ensures BestOf(ps + [p]) == Keep(BestOf(ps), p.0, p.1)
  {
    assert (ps + [p])[..|ps|] == ps;
  }

  /** What the search loop leaves behind: the error, or the best score per name. */
  function Searched(sim: Similarity, hashcode: string, originator: string, lea: string, lines: seq<string>): Result<Best>
  {
    match Scored(sim, hashcode, originator, lea, lines)
    case Err(e) => Err(e)
    case Ok(ps) => Ok(BestOf(ps))
  }

  /**
   * The search loop of `searchForMatchesVoice` and `searchForMatchesFinger`, over the
   * real catalogue followed, after a newline, by the synthetic one.
   */
  method SearchCatalogue(sim: Similarity, hashcode: string, originator: string, lea: string,
                         realCatalogue: string, syntheticCatalogue: string) returns (r: Result<Best>)
    ensures r == Searched(sim, hashcode, originator, lea, SplitLines(realCatalogue + "\n" + syntheticCatalogue))
  {
    var content := realCatalogue + "\n" + syntheticCatalogue;
    r := SearchLines(sim, hashcode, originator, lea, SplitLines(content));
  }

  method SearchLines(sim: Similarity, hashcode: string, originator: string, lea: string,
                     lines: seq<string>) returns (r: Result<Best>)
    ensures r == Searched(sim, hashcode, originator, lea, lines)
  {
    var filenames: seq<string> := [];
    var distances: seq<real> := [];
    ghost var ps: seq<(string, real)> := [];
    for i := 0 to |lines|
      invariant Scored(sim, hashcode, originator, lea, lines[..i]) == Ok(ps)
      invariant Best(filenames, distances) == BestOf(ps)
    {
      ScoredNext(sim, hashcode, originator, lea, lines, i);
      match ParseSpaced(lines[i]) {
        case Skipped =>
        case Unpackable =>
          ScoredFailureSticks(sim, hashcode, originator, lea, lines, i + 1, "ValueError");
          return Err("ValueError");
        case Listed(entry) =>
          if entry.sensitive && originator != lea {
            continue;
          }
          var similarity := sim(hashcode, entry.code);
          if similarity.None? {
            ScoredFailureSticks(sim, hashcode, originator, lea, lines, i + 1, "RequestException");
            return Err("RequestException");
          }
          var filename := entry.name;
          ghost var b0 := Best(filenames, distances);
          BestOfSnoc(ps, (filename, similarity.value));
          ps := ps + [(filename, similarity.value)];
          if filename !in filenames {
            filenames := filenames + [filename];
            distances := distances + [similarity.value];
          } else {
            var idx := FirstIndex(filenames, filename);
            if similarity.value > distances[idx] {
              distances := distances[idx := similarity.value];
            }
          }
          assert Best(filenames, distances) == Keep(b0, filename, similarity.value);
      }
    }
    assert lines[..|lines|] == lines;
    return Ok(Best(filenames, distances));
  }

  // ---------------------------------------------------------------------------
  // What the best scores are.

  function Names(ps: seq<(string, real)>): (r: seq<string>)
    ensures |r| == |ps| && forall i | 0 <= i < |ps| :: r[i] == ps[i].0
  {
    if |ps| == 0 then [] else Names(ps[..|ps| - 1]) + [ps[|ps| - 1].0]
  }

  /** The largest similarity among the pairs for a name. */
  function MaxScore(ps: seq<(string, real)>, name: string): real
    requires name in Names(ps)
  {
    var last := ps[|ps| - 1];
    var prefix := ps[..|ps| - 1];
    assert Names(ps) == Names(prefix) + [last.0];
    if last.0 != name then MaxScore(prefix, name)
    else if name in Names(prefix) && MaxScore(prefix, name) >= last.1 then MaxScore(prefix, name)
    else last.1
  }

  /** MaxScore is the maximum: no pair for the name scores higher, and some pair scores exactly that. */
  lemma {:induction false} MaxScoreIsMax(ps: seq<(string, real)>, name: string)
    requires name in Names(ps)
    ensures forall i | 0 <= i < |ps| && ps[i].0 == name :: ps[i].1 <= MaxScore(ps, name)
    ensures exists i | 0 <= i < |ps| :: ps[i] == (name, MaxScore(ps, name))
  {
    var prefix := ps[..|ps| - 1];
    assert Names(ps) == Names(prefix) + [ps[|ps| - 1].0];
    if name in Names(prefix) {
      MaxScoreIsMax(prefix, name);
      var i :| 0 <= i < |prefix| && prefix[i] == (name, MaxScore(prefix, name));
      assert ps[i] == prefix[i];
    }
  }

  /**
   * The search keeps each name once, in first-seen order, with the largest similarity
   * any of its visible lines scored.
   */
  lemma {:induction false} BestOfMeaning(ps: seq<(string, real)>)
    ensures var b := BestOf(ps);
      && b.names == Dedup(Names(ps))
      && (forall i, j | 0 <= i < j < |b.names| :: b.names[i] != b.names[j])
      && (forall k | 0 <= k < |b.names| :: b.names[k] in Names(ps) && b.scores[k] == MaxScore(ps, b.names[k]))
  {
    if |ps| > 0 {
      var prefix := ps[..|ps| - 1];
      BestOfMeaning(prefix);
      DedupMembers(Names(prefix));
      assert Names(ps) == Names(prefix) + [ps[|ps| - 1].0];
      assert Names(ps)[..|ps| - 1] == Names(prefix);
      forall k | 0 <= k < |BestOf(ps).names|
        ensures BestOf(ps).names[k] in Names(ps) && BestOf(ps).scores[k] == MaxScore(ps, BestOf(ps).names[k])
      {
        KeptScore(ps, k);
      }
    }
  }

  /** One kept pair leaves every name with the best score of the pairs so far, given that the earlier names had it. */
  lemma KeptScore(ps: seq<(string, real)>, k: nat)
    requires |ps| > 0
    requires var prefix := ps[..|ps| - 1]; var b0 := BestOf(prefix);
      forall m | 0 <= m < |b0.names| :: b0.names[m] in Names(prefix) && b0.scores[m] == MaxScore(prefix, b0.names[m])
    requires BestOf(ps[..|ps| - 1]).names == Dedup(Names(ps[..|ps| - 1]))
    requires var names := BestOf(ps[..|ps| - 1]).names; forall i, j | 0 <= i < j < |names| :: names[i] != names[j]
    requires Names(ps) == Names(ps[..|ps| - 1]) + [ps[|ps| - 1].0]
    requires k < |BestOf(ps).names|
    ensures BestOf(ps).names[k] in Names(ps) && BestOf(ps).scores[k] == MaxScore(ps, BestOf(ps).names[k])
  {
    var prefix := ps[..|ps| - 1];
    var (n, s) := ps[|ps| - 1];
    var b0 := BestOf(prefix);
    var b := BestOf(ps);
    DedupMembers(Names(prefix));
    assert b == Keep(b0, n, s);
    var name := b.names[k];
    if name != n {
      assert k < |b0.names| && b0.names[k] == name && b.scores[k] == b0.scores[k];
      assert MaxScore(ps, name) == MaxScore(prefix, name);
    } else if n !in b0.names {
      assert n !in Names(prefix);
    } else {
      var idx := FirstIndex(b0.names, n);
      assert k == idx;
    }
  }

  // ---------------------------------------------------------------------------
  // The ranking.

  /**
   * `np.argsort(distances)[::-1]`: the positions of all scores, each once, from the
   * highest score down; the order among equal scores is left open.
   */
  predicate DescendingRanking(ranking: seq<nat>, scores: seq<real>)
  {
    && |ranking| == |scores|
    && (forall i | 0 <= i < |ranking| :: ranking[i] < |scores|)
    && (forall j | 0 <= j < |scores| :: j in ranking)
    && (forall i, j | 0 <= i < j < |ranking| :: ranking[i] != ranking[j])
    && (forall i, j | 0 <= i < j < |ranking| :: scores[ranking[i]] >= scores[ranking[j]])
  }

  /** An argsort that ranks any score list. */
  ghost predicate Ranks(argsort: seq<real> -> seq<nat>)
  {
    forall scores :: DescendingRanking(argsort(scores), scores)
  }

  function Min(a: nat, b: nat): nat
  {
    if a < b then a else b
  }

  /** The names and scores of the first `topN` ranks. */
  function Top(b: Best, ranking: seq<nat>, topN: nat): (r: (seq<string>, seq<real>))
    requires |b.names| == |b.scores| && DescendingRanking(ranking, b.scores)
    ensures |r.0| == |r.1| == Min(topN, |b.names|)
  {
    var m := Min(topN, |b.names|);
    (seq(m, i requires 0 <= i < m => b.names[ranking[i]]), seq(m, i requires 0 <= i < m => b.scores[ranking[i]]))
  }

  /**
   * The top list is sorted by descending score, lists distinct names when the names
   * are distinct, and no name left out scores higher than any name listed.
   */
  lemma TopMeaning(b: Best, ranking: seq<nat>, topN: nat)
    requires |b.names| == |b.scores| && DescendingRanking(ranking, b.scores)
    requires forall i, j | 0 <= i < j < |b.names| :: b.names[i] != b.names[j]
    ensures var (names, scores) := Top(b, ranking, topN);
      && (forall i, j | 0 <= i < j < |scores| :: scores[i] >= scores[j])
      && (forall i, j | 0 <= i < j < |names| :: names[i] != names[j])
      && (forall k, i | 0 <= k < |b.names| && b.names[k] !in names && 0 <= i < |scores| :: b.scores[k] <= scores[i])
  {
    var (names, scores) := Top(b, ranking, topN);
    forall k, i | 0 <= k < |b.names| && b.names[k] !in names && 0 <= i < |scores|
      ensures b.scores[k] <= scores[i]
    {
      assert k in ranking;
      forall q | 0 <= q < |names|
        ensures ranking[q] != k
      {
        assert names[q] == b.names[ranking[q]];
      }
      var p :| 0 <= p < |ranking| && ranking[p] == k;
      assert scores[i] == b.scores[ranking[i]];
    }
  }

  /** What a voice or fingerprint search returns: the error, or the top names and their scores. */
  function Ranked(sim: Similarity, argsort: seq<real> -> seq<nat>, hashcode: string, originator: string,
                  lea: string, lines: seq<string>, topN: nat): Result<(seq<string>, seq<real>)>
    requires Ranks(argsort)
  {
    match Searched(sim, hashcode, originator, lea, lines)
    case Err(e) => Err(e)
    case Ok(b) => Ok(Top(b, argsort(b.scores), topN))
  }

  /**
   * A successful search returns at most `topN` distinct ids, by descending score; each
   * score is the best similarity of that id's visible lines, and every id left out
   * scores no higher than any id returned.
   */
  lemma RankedMeaning(sim: Similarity, argsort: seq<real> -> seq<nat>, hashcode: string, originator: string,
                      lea: string, lines: seq<string>, topN: nat)
    requires Ranks(argsort)
    requires Ranked(sim, argsort, hashcode, originator, lea, lines, topN).Ok?
    ensures var ps := Scored(sim, hashcode, originator, lea, lines).value;
      var (names, scores) := Ranked(sim, argsort, hashcode, originator, lea, lines, topN).value;
      && |names| == |scores| == Min(topN, |Dedup(Names(ps))|)
      && (forall i, j | 0 <= i < j < |names| :: names[i] != names[j])
      && (forall i, j | 0 <= i < j < |scores| :: scores[i] >= scores[j])
      && (forall i | 0 <= i < |names| :: names[i] in Names(ps) && scores[i] == MaxScore(ps, names[i]))
      && (forall n, i | n in Names(ps) && n !in names && 0 <= i < |scores| :: MaxScore(ps, n) <= scores[i])
  {
    var ps := Scored(sim, hashcode, originator, lea, lines).value;
    var scores := BestOf(ps).scores;
    var ranking := argsort(scores);
    assert DescendingRanking(ranking, scores);
    TopOfBest(ps, ranking, topN);
  }

  /** The top of the best scores, in terms of the pairs they come from. */
  lemma TopOfBest(ps: seq<(string, real)>, ranking: seq<nat>, topN: nat)
    requires DescendingRanking(ranking, BestOf(ps).scores)
    ensures var (names, scores) := Top(BestOf(ps), ranking, topN);
      && |names| == |scores| == Min(topN, |Dedup(Names(ps))|)
      && (forall i, j | 0 <= i < j < |names| :: names[i] != names[j])
      && (forall i, j | 0 <= i < j < |scores| :: scores[i] >= scores[j])
      && (forall i | 0 <= i < |names| :: names[i] in Names(ps) && scores[i] == MaxScore(ps, names[i]))
      && (forall n, i | n in Names(ps) && n !in names && 0 <= i < |scores| :: MaxScore(ps, n) <= scores[i])
  {
    var b := BestOf(ps);
    BestOfMeaning(ps);
    DedupMembers(Names(ps));
    TopMeaning(b, ranking, topN);
    var (names, scores) := Top(b, ranking, topN);
    forall i | 0 <= i < |names|
      ensures names[i] in Names(ps) && scores[i] == MaxScore(ps, names[i])
    {
      assert names[i] == b.names[ranking[i]] && scores[i] == b.scores[ranking[i]];
    }
    forall n, i | n in Names(ps) && n !in names && 0 <= i < |scores|
      ensures MaxScore(ps, n) <= scores[i]
    {
      var k :| 0 <= k < |b.names| && b.names[k] == n;
    }
  }

  // ---------------------------------------------------------------------------
  // Appending to a catalogue.

  /**
   * The catalogue an index call starts from: empty when fetching it raised or when it
   * is a JSON object carrying an `error` key (the storage's "not found" answer).
   */
  function ExistingCatalogue(fetched: Option<string>, isErrorObject: string -> bool): (r: string)
    ensures fetched.None? ==> r == ""
    ensures fetched.Some? ==> r == (if isErrorObject(fetched.value) then "" else fetched.value)
  {
    if fetched.None? then "" else if isErrorObject(fetched.value) then "" else fetched.value
  }

  /** The updated catalogue: the existing one stripped, a newline, and the new line. */
  function UpdatedCatalogue(existing: string, newLine: string): string
  {
    Strip(existing) + "\n" + newLine
  }

  /** A non-empty line without breaks splits into itself. */
  lemma SingleLine(b: string)
    requires |b| > 0 && NoBreak(b)
    ensures SplitLines(b) == [b]
  {
    FirstBreakNone(b, 0);
  }

  lemma {:induction false} FirstBreakNone(s: string, i: nat)
    requires i <= |s| && NoBreak(s)
    ensures FirstBreak(s, i) == |s|
    decreases |s| - i
  {
    if i < |s| {
      FirstBreakNone(s, i + 1);
    }
  }

  /** Text not ending in a line break, then "\n" and a non-empty line, splits with that line last. */
  lemma {:induction false} LastLine(a: string, b: string)
    requires |a| == 0 || !IsLineBreak(a[|a| - 1])
    requires |b| > 0 && NoBreak(b)
    ensures var lines := SplitLines(a + "\n" + b); |lines| >= 1 && lines[|lines| - 1] == b
    decreases |a|
  {
    var s := a + "\n" + b;
    var k := FirstBreak(s, 0);
    assert k <= |a| by { assert s[|a|] == '\n'; }
    if k < |a| {
      var skip := if s[k] == '\r' && k + 1 < |s| && s[k + 1] == '\n' then 2 else 1;
      assert k + skip <= |a| && s[k + skip..] == a[k + skip..] + "\n" + b by { assert s[k] == a[k]; }
      LastLine(a[k + skip..], b);
      LastLineStep(s, k, skip, b);
    } else {
      assert s[k + 1..] == b;
      SingleLine(b);
      SplitLinesStep(s, k, 1);
    }
  }

  /** The last line after the first break is the last line of the whole text. */
  lemma LastLineStep(s: string, k: nat, skip: nat, b: string)
    requires |s| > 0 && k == FirstBreak(s, 0) < |s|
    requires skip == if s[k] == '\r' && k + 1 < |s| && s[k + 1] == '\n' then 2 else 1
    requires var tail := SplitLines(s[k + skip..]); |tail| >= 1 && tail[|tail| - 1] == b
    ensures var lines := SplitLines(s); |lines| >= 1 && lines[|lines| - 1] == b
  {
    var tail := SplitLines(s[k + skip..]);
    SplitLinesStep(s, k, skip);
    assert SplitLines(s) == [s[..k]] + tail;
  }

  /** Scanning a prefix for a break finds the same break, if the break lies within it. */
  lemma {:induction false} FirstBreakOfPrefix(s: string, a: string, i: nat)
    requires |a| <= |s| && a == s[..|a|] && i <= |a| && FirstBreak(s, i) <= |a|
    ensures FirstBreak(a, i) == FirstBreak(s, i)
    decreases |a| - i
  {
    if i < |a| && !IsLineBreak(s[i]) {
      assert a[i] == s[i];
      FirstBreakOfPrefix(s, a, i + 1);
    }
  }

  /** SplitLines, one line at a time: the text before the first break, then the rest. */
  lemma SplitLinesStep(s: string, k: nat, skip: nat)
    requires |s| > 0 && k == FirstBreak(s, 0) < |s|
    requires skip == if s[k] == '\r' && k + 1 < |s| && s[k + 1] == '\n' then 2 else 1
    ensures SplitLines(s) == [s[..k]] + SplitLines(s[k + skip..])
  {
  }

  lemma ConcatAssoc(x: seq<string>, y: seq<string>, z: seq<string>)
    ensures x + (y + z) == (x + y) + z
  {
  }

  /** Text not ending in a line break, then "\n" and more text, splits into the lines of each. */
  lemma {:induction false} ConcatLines(a: string, c: string)
    requires |a| > 0 && !IsLineBreak(a[|a| - 1])
    ensures SplitLines(a + "\n" + c) == SplitLines(a) + SplitLines(c)
    decreases |a|
  {
    var s := a + "\n" + c;
    assert a == s[..|a|];
    assert s[|a|] == '\n';
    var k := FirstBreak(s, 0);
    assert k <= |a|;
    FirstBreakOfPrefix(s, a, 0);
    if k < |a| {
      var skip := if a[k] == '\r' && k + 1 < |a| && a[k + 1] == '\n' then 2 else 1;
      assert k + skip < |a|;
      var a' := a[k + skip..];
      assert s[..k] == a[..k];
      assert s[k + skip..] == a' + "\n" + c;
      SplitLinesStep(s, k, skip);
      SplitLinesStep(a, k, skip);
      ConcatLines(a', c);
      var head, rest, tail := [a[..k]], SplitLines(a'), SplitLines(c);
      assert SplitLines(s) == head + (rest + tail);
      ConcatAssoc(head, rest, tail);
    } else {
      SplitLinesStep(s, k, 1);
      assert s[k + 1..] == c;
    }
  }

  /** The new line is the last line of the uploaded catalogue. */
  lemma NewLineIsLast(existing: string, newLine: string)
    requires |newLine| > 0 && NoBreak(newLine)
    ensures var lines := SplitLines(UpdatedCatalogue(existing, newLine)); |lines| >= 1 && lines[|lines| - 1] == newLine
  {
    var s := Strip(existing);
    if |s| > 0 {
      assert !IsPySpace(s[|s| - 1]);
    }
    LastLine(s, newLine);
  }

  /**
   * The upload target of an updated catalogue: the configured file URL split after its
   * last `%2F` (an encoded '/') into the folder to post to and the file name.
   */
  function SplitUploadUrl(url: string): (r: (string, string))
    ensures r.0 + r.1 == url
    ensures RFind(url, "%2F") >= 0 ==> EndsWith(r.0, "%2F") && forall i :: !OccursAt(r.1, "%2F", i)
  {
    var last := RFind(url, "%2F");
    var cut := if last + 3 <= |url| then last + 3 else |url|;
    assert last >= 0 ==> cut == last + 3;
    assert last >= 0 ==> forall i | 0 <= i :: OccursAt(url[cut..], "%2F", i) ==> OccursAt(url, "%2F", cut + i);
    (url[..cut], url[cut..])
  }

  /** Any line break is Python whitespace. */
  lemma BreakIsSpace(c: char)
    ensures IsLineBreak(c) ==> IsPySpace(c)
  {
  }

  /** An indexed line holds no line break. */
  lemma SpacedLineUnbroken(name: string, code: string, sensitive: bool)
    requires NoSpace(name) && NoSpace(code)
    ensures NoBreak(SpacedLine(name, code, sensitive))
  {
    var line := SpacedLine(name, code, sensitive);
    forall i | 0 <= i < |line|
      ensures !IsLineBreak(line[i])
    {
      if i < |name| {
        assert line[i] == name[i];
      } else if |name| < i < |name| + 1 + |code| {
        assert line[i] == code[i - |name| - 1];
      }
    }
  }

  /**
   * The line an index call appends is one of the lines a search over the uploaded
   * catalogue reads, whatever the synthetic catalogue holds. The search reads the cached
   * catalogue, so this is the search after a reload, or after an index call that
   * refreshes the cache (`CatalogueCache.ModelManager.IndexRefreshing`).
   */
  lemma IndexedLineSearched(existing: string, newLine: string, synthetic: string)
    requires |newLine| > 0 && NoBreak(newLine)
    ensures newLine in SplitLines(UpdatedCatalogue(existing, newLine) + "\n" + synthetic)
  {
    var updated := UpdatedCatalogue(existing, newLine);
    NewLineIsLast(existing, newLine);
    assert updated[|updated| - 1] == newLine[|newLine| - 1];
    ConcatLines(updated, synthetic);
  }

  // ---------------------------------------------------------------------------
  // Scores and uploads shared by the comparators.

  /**
   * The similarity, in percent, of two 64-bit codes whose encrypted Hamming service
   * answers `hamming` (twice the number of differing bits): `(64 - hamming / 2) / 64 * 100`.
   */
  function SimilarityPercent(hamming: int): (r: real)
    ensures hamming == 0 <==> r == 100.0
    ensures hamming == 128 <==> r == 0.0
  {
    (64.0 - hamming as real / 2.0) / 64.0 * 100.0
  }

  /** Fewer differing bits, higher similarity, and the other way round. */
  lemma SimilarityOrder(h1: int, h2: int)
    ensures h1 <= h2 <==> SimilarityPercent(h1) >= SimilarityPercent(h2)
  {
  }

  /** The similarity a Hamming-distance service gives; None when the request raises. */
  function HammingSimilarity(hamming: (string, string) -> Option<int>): Similarity
  {
    (query, code) => if hamming(query, code).None? then None else Some(SimilarityPercent(hamming(query, code).value))
  }

  /** What an index call uploads: the folder URL, the file name and the new catalogue text. */
  datatype Upload = Upload(postUrl: string, fileName: string, content: string)

  /**
   * The upload of a catalogue with `newLine` appended to what was fetched, to the
   * folder and file named by the configured catalogue URL.
   */
  function CatalogueUpload(fetched: Option<string>, isErrorObject: string -> bool, newLine: string, url: string)
    : (u: Upload)
    ensures u.postUrl + u.fileName == url
    ensures u.content == UpdatedCatalogue(ExistingCatalogue(fetched, isErrorObject), newLine)
  {
    var (postUrl, fileName) := SplitUploadUrl(url);
    Upload(postUrl, fileName, UpdatedCatalogue(ExistingCatalogue(fetched, isErrorObject), newLine))
  }

  /**
   * An id indexed with a code, searched for by a requester allowed to see the entry:
   * if the search over the uploaded catalogue and any synthetic one succeeds, the id is
   * among the scored ids, with a best score at least its code's similarity. The search
   * reads the cached catalogue, which holds the upload only after a reload or a
   * refreshing index call.
   */
  lemma IndexedEntryFound(sim: Similarity, hashcode: string, originator: string, lea: string,
                          existing: string, name: string, code: string, sensitive: bool, synthetic: string)
    requires |name| > 0 && NoSpace(name) && NoSpace(code)
    requires !sensitive || originator == lea
    requires var lines := SplitLines(UpdatedCatalogue(existing, SpacedLine(name, code, sensitive)) + "\n" + synthetic);
      Scored(sim, hashcode, originator, lea, lines).Ok?
    ensures var lines := SplitLines(UpdatedCatalogue(existing, SpacedLine(name, code, sensitive)) + "\n" + synthetic);
      var ps := Scored(sim, hashcode, originator, lea, lines).value;
      && sim(hashcode, code).Some?
      && name in Names(ps)
      && MaxScore(ps, name) >= sim(hashcode, code).value
  {
    var line := SpacedLine(name, code, sensitive);
    var lines := SplitLines(UpdatedCatalogue(existing, line) + "\n" + synthetic);
    SpacedLineUnbroken(name, code, sensitive);
    IndexedLineSearched(existing, line, synthetic);
    SpacedRoundTrip(name, code, sensitive);
    var j :| 0 <= j < |lines| && lines[j] == line;
    ScoredIncludes(sim, hashcode, originator, lea, lines, j);
    var ps := Scored(sim, hashcode, originator, lea, lines).value;
    var i :| 0 <= i < |ps| && ps[i] == (name, sim(hashcode, code).value);
    assert Names(ps)[i] == name;
    MaxScoreIsMax(ps, name);
  }
}
