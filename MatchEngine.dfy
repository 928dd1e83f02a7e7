/** The match engine: best-match scans over a group's records, distinct
    sender counting, and the context windows handed to the judgment prompt.

    The text scan (`_find_best_match`) and the image scan
    (`_find_similar_image`) are the same loop over different fingerprints,
    so both are instances of one scan, `ScanBest`, parameterised by which
    records are eligible and how a record is scored. Cosine similarity is
    floating-point numpy code and is passed in as an opaque function; the
    hash similarity is the exact one from module Fingerprint. */
module MatchEngine {
  import opened Records
  import opened Fingerprint

  /** What a scan returns: the matched record (if any), its index (-1 when
      there is none) and the best score seen. */
  datatype Match = Match(record: Option<Record>, index: int, bestSim: real)

  const NoMatch := Match(None, -1, 0.0)

  /** How many leading records a scan looks at: `len - exclude_recent` when
      exclude_recent is positive (`range` of a negative number is empty),
      otherwise all of them. */
  function ScanEnd(n: nat, excludeRecent: int): (e: nat)
    ensures e <= n
    ensures excludeRecent <= 0 ==> e == n
    ensures 0 < excludeRecent <= n ==> e + excludeRecent == n
  {
    if excludeRecent > 0 then (if n - excludeRecent > 0 then n - excludeRecent else 0) else n
  }

  // ---------------------------------------------------------------------
  // The scan

  /** The state of the scan after the first k records: the best score only
      moves up on a strictly greater eligible score, and the record and
      index are only taken when that new best also reaches the threshold. */
  function BestUpTo(records: seq<Record>, k: nat, eligible: Record -> bool,
                    score: Record -> real, threshold: real): Match
    requires k <= |records|
  {
    if k == 0 then NoMatch
    else
      var m := BestUpTo(records, k - 1, eligible, score, threshold);
      var r := records[k - 1];
      if eligible(r) && score(r) > m.bestSim then
        if score(r) >= threshold then Match(Some(r), k - 1, score(r))
        else Match(m.record, m.index, score(r))
      else m
  }

  /** What a scan over records[..n] promises, stated without the loop. */
  ghost predicate IsBestMatch(records: seq<Record>, n: nat, eligible: Record -> bool,
                              score: Record -> real, threshold: real, m: Match)
    requires n <= |records|
  {
    // the best score is the maximum of 0.0 and every scanned eligible score
    && 0.0 <= m.bestSim
    && (forall i :: 0 <= i < n && eligible(records[i]) ==> score(records[i]) <= m.bestSim)
    && (m.bestSim == 0.0 ||
        exists i :: 0 <= i < n && eligible(records[i]) && score(records[i]) == m.bestSim)
    // a record is returned iff that maximum is positive and meets the threshold
    && (m.record.Some? <==> 0.0 < m.bestSim && threshold <= m.bestSim)
    && (m.record.None? <==> m.index == -1)
    // ... and it is the first scanned eligible record that reaches the maximum
    && (m.record.Some? ==>
          && 0 <= m.index < n
          && records[m.index] == m.record.value
          && eligible(records[m.index])
          && score(records[m.index]) == m.bestSim
          && forall j :: 0 <= j < m.index && eligible(records[j]) ==> score(records[j]) < m.bestSim)
  }

  lemma {:induction false} BestUpToIsBest(records: seq<Record>, k: nat, eligible: Record -> bool,
                                          score: Record -> real, threshold: real)
    requires k <= |records|
    ensures IsBestMatch(records, k, eligible, score, threshold,
                        BestUpTo(records, k, eligible, score, threshold))
  {
    if k > 0 {
      BestUpToIsBest(records, k - 1, eligible, score, threshold);
      var m := BestUpTo(records, k - 1, eligible, score, threshold);
      var r := records[k - 1];
      if eligible(r) && score(r) > m.bestSim {
        assert eligible(records[k - 1]) && score(records[k - 1]) == score(r);
      }
    }
  }

  /** The characterisation pins the result down: two results that both
      satisfy it are the same. */
  lemma {:induction false} BestMatchUnique(records: seq<Record>, n: nat, eligible: Record -> bool,
                        score: Record -> real, threshold: real, m1: Match, m2: Match)
    requires n <= |records|
    requires IsBestMatch(records, n, eligible, score, threshold, m1)
    requires IsBestMatch(records, n, eligible, score, threshold, m2)
    ensures m1 == m2
  {
    if m1.bestSim != 0.0 {
      var i :| 0 <= i < n && eligible(records[i]) && score(records[i]) == m1.bestSim;
    }
    if m2.bestSim != 0.0 {
      var i :| 0 <= i < n && eligible(records[i]) && score(records[i]) == m2.bestSim;
    }
    assert m1.bestSim == m2.bestSim;
    if m1.record.Some? {
      assert m1.index == m2.index;
    }
  }

  /** The loop both scans run. */
  method ScanBest(records: seq<Record>, eligible: Record -> bool, score: Record -> real,
                  threshold: real, excludeRecent: int) returns (m: Match)
    ensures m == BestUpTo(records, ScanEnd(|records|, excludeRecent), eligible, score, threshold)
    ensures IsBestMatch(records, ScanEnd(|records|, excludeRecent), eligible, score, threshold, m)
  {
    var bestSim, bestRecord, bestIdx := 0.0, None, -1;
    var searchRange := if excludeRecent > 0 then |records| - excludeRecent else |records|;
    var i := 0;
    while i < searchRange
      invariant 0 <= i <= ScanEnd(|records|, excludeRecent)
      invariant i < searchRange ==> i < ScanEnd(|records|, excludeRecent)
      invariant Match(bestRecord, bestIdx, bestSim) == BestUpTo(records, i, eligible, score, threshold)
    {
      var r := records[i];
      if eligible(r) {
        var sim := score(r);
        if sim > bestSim {
          bestSim := sim;
          if sim >= threshold {
            bestRecord, bestIdx := Some(r), i;
          }
        }
      }
      i := i + 1;
    }
    m := Match(bestRecord, bestIdx, bestSim);
    BestUpToIsBest(records, i, eligible, score, threshold);
  }

  // ---------------------------------------------------------------------
  // Text and image instances

  /** The text scan skips records without an embedding and records whose
      embedding has another dimension than the query. */
  function TextEligible(query: seq<real>): Record -> bool {
    r => HasEmbedding(r) && |EmbeddingOf(r)| == |query|
  }

  function TextScore(query: seq<real>, cosine: (seq<real>, seq<real>) -> real): Record -> real {
    r => cosine(query, EmbeddingOf(r))
  }

  /** The image scan skips records without an image hash. */
  function ImageEligible(): Record -> bool {
    r => HasImageHash(r)
  }

  function ImageScore(hash: string): Record -> real {
    r => HashSimilarity(hash, ImageHashOf(r))
  }

  function BestTextMatch(records: seq<Record>, query: seq<real>, threshold: real,
                         excludeRecent: int, cosine: (seq<real>, seq<real>) -> real): Match
  {
    BestUpTo(records, ScanEnd(|records|, excludeRecent), TextEligible(query),
             TextScore(query, cosine), threshold)
  }

  function BestImageMatch(records: seq<Record>, hash: string, threshold: real,
                          excludeRecent: int): Match
  {
    BestUpTo(records, ScanEnd(|records|, excludeRecent), ImageEligible(),
             ImageScore(hash), threshold)
  }

  /** `_find_best_match`. */
  method FindBestMatch(records: seq<Record>, query: seq<real>, threshold: real,
                       excludeRecent: int, cosine: (seq<real>, seq<real>) -> real)
    returns (m: Match)
    ensures m == BestTextMatch(records, query, threshold, excludeRecent, cosine)
    ensures IsBestMatch(records, ScanEnd(|records|, excludeRecent), TextEligible(query),
                        TextScore(query, cosine), threshold, m)
  {
    m := ScanBest(records, TextEligible(query), TextScore(query, cosine), threshold, excludeRecent);
  }

  /** `_find_similar_image`. */
  method FindSimilarImage(records: seq<Record>, hash: string, threshold: real, excludeRecent: int)
    returns (m: Match)
    ensures m == BestImageMatch(records, hash, threshold, excludeRecent)
    ensures IsBestMatch(records, ScanEnd(|records|, excludeRecent), ImageEligible(),
                        ImageScore(hash), threshold, m)
    ensures m.record.Some? ==> HasImageHash(m.record.value) && 0.0 < m.bestSim <= 1.0
  {
    m := ScanBest(records, ImageEligible(), ImageScore(hash), threshold, excludeRecent);
  }

  /** Whatever the scan returns lies among the first ScanEnd records, so
      with exclude_recent = 1 on `history + [msg]` the new message is never
      its own match. */
  lemma {:induction false} ExcludedTailNeverMatched(history: seq<Record>, msg: Record, eligible: Record -> bool,
                                 score: Record -> real, threshold: real)
    ensures var m := BestUpTo(history + [msg], ScanEnd(|history| + 1, 1), eligible, score, threshold);
            m.record.Some? ==> 0 <= m.index < |history| && m.record.value == history[m.index]
  {
    var s := history + [msg];
    BestUpToIsBest(s, ScanEnd(|s|, 1), eligible, score, threshold);
  }

  // ---------------------------------------------------------------------
  // Distinct senders

  /** Text records counted as "the same content": eligible and at or above
      the threshold. */
  function TextQualifies(query: seq<real>, threshold: real,
                         cosine: (seq<real>, seq<real>) -> real): Record -> bool {
    r => HasEmbedding(r) && |EmbeddingOf(r)| == |query| && cosine(query, EmbeddingOf(r)) >= threshold
  }

  function ImageQualifies(hash: string, threshold: real): Record -> bool {
    r => HasImageHash(r) && HashSimilarity(hash, ImageHashOf(r)) >= threshold
  }

  /** The non-empty sender ids of the qualifying records. */
  function SenderIds(records: seq<Record>, qualifies: Record -> bool): set<string>
  {
    if records == [] then {}
    else
      var r := records[|records| - 1];
      SenderIds(records[..|records| - 1], qualifies) +
        (if qualifies(r) && r.senderId != "" then {r.senderId} else {})
  }

  function CountQualifying(records: seq<Record>, qualifies: Record -> bool): (c: nat)
    ensures c <= |records|
  {
    if records == [] then 0
    else
      CountQualifying(records[..|records| - 1], qualifies) +
        (if qualifies(records[|records| - 1]) then 1 else 0)
  }

  lemma {:induction false} SenderIdsMembers(records: seq<Record>, qualifies: Record -> bool, id: string)
    ensures id in SenderIds(records, qualifies) <==>
      id != "" && exists i :: 0 <= i < |records| && qualifies(records[i]) && records[i].senderId == id
  {
    if records != [] {
      var n := |records|;
      SenderIdsMembers(records[..n - 1], qualifies, id);
      if id in SenderIds(records[..n - 1], qualifies) {
        var i :| 0 <= i < n - 1 && qualifies(records[..n - 1][i]) && records[..n - 1][i].senderId == id;
        assert records[i] == records[..n - 1][i];
      }
      if exists i :: 0 <= i < n && qualifies(records[i]) && records[i].senderId == id {
        var i :| 0 <= i < n && qualifies(records[i]) && records[i].senderId == id;
        if i < n - 1 {
          assert records[..n - 1][i] == records[i];
        }
      }
    }
  }

  /** There are never more distinct senders than qualifying records. */
  lemma {:induction false} SenderIdsBound(records: seq<Record>, qualifies: Record -> bool)
    ensures |SenderIds(records, qualifies)| <= CountQualifying(records, qualifies)
  {
    if records != [] {
      SenderIdsBound(records[..|records| - 1], qualifies);
    }
  }

  /** The loop both counters run; the source returns `list(sender_ids)`,
      whose order Python leaves unspecified, so the set is returned. */
  method CountDistinctSenders(records: seq<Record>, qualifies: Record -> bool)
    returns (count: nat, senders: set<string>)
    ensures senders == SenderIds(records, qualifies)
    ensures count == |senders| <= CountQualifying(records, qualifies)
    ensures forall id :: id in senders <==>
      id != "" && exists i :: 0 <= i < |records| && qualifies(records[i]) && records[i].senderId == id
  {
    var ids: set<string> := {};
    var i := 0;
    while i < |records|
      invariant i <= |records|
      invariant ids == SenderIds(records[..i], qualifies)
    {
      var r := records[i];
      assert records[..i + 1][..i] == records[..i];
      if qualifies(r) && r.senderId != "" {
        ids := ids + {r.senderId};
      }
      i := i + 1;
    }
    assert records[..i] == records;
    count, senders := |ids|, ids;
    SenderIdsBound(records, qualifies);
    forall id ensures id in senders <==>
      id != "" && exists i :: 0 <= i < |records| && qualifies(records[i]) && records[i].senderId == id
    {
      SenderIdsMembers(records, qualifies, id);
    }
  }

  /** `_count_unique_senders`. */
  method CountUniqueSenders(records: seq<Record>, query: seq<real>, threshold: real,
                            cosine: (seq<real>, seq<real>) -> real)
    returns (count: nat, senders: set<string>)
    ensures senders == SenderIds(records, TextQualifies(query, threshold, cosine))
    ensures count == |senders| <= CountQualifying(records, TextQualifies(query, threshold, cosine))
  {
    count, senders := CountDistinctSenders(records, TextQualifies(query, threshold, cosine));
  }

  /** `_count_unique_senders_by_hash`. */
  method CountUniqueSendersByHash(records: seq<Record>, hash: string, threshold: real)
    returns (count: nat, senders: set<string>)
    ensures senders == SenderIds(records, ImageQualifies(hash, threshold))
    ensures count == |senders| <= CountQualifying(records, ImageQualifies(hash, threshold))
  {
    count, senders := CountDistinctSenders(records, ImageQualifies(hash, threshold));
  }

  /** A valid image hash always qualifies against itself (its similarity is
      1.0), so the poster of the new message, whose record is the last one
      of the snapshot the counter is given, is one of the counted senders. */
  lemma {:induction false} NewPosterCountedByHash(history: seq<Record>, msg: Record, threshold: real)
    requires HasImageHash(msg) && IsHex(ImageHashOf(msg)) && msg.senderId != ""
    requires threshold <= 1.0
    ensures msg.senderId in SenderIds(history + [msg], ImageQualifies(ImageHashOf(msg), threshold))
  {
    var h := ImageHashOf(msg);
    HashSimilarityOne(h, h);
    var s := history + [msg];
    assert s[..|s| - 1] == history;
  }

  // ---------------------------------------------------------------------
  // Context windows for the judgment prompt

  /** Where a Python slice bound `i` lands in a list of length n. */
  function SliceBound(i: int, n: nat): (b: nat)
    ensures b <= n
  {
    if i < 0 then (if i + n < 0 then 0 else i + n) else if i > n then n else i
  }

  /** Python's `s[lo:hi]`, negative bounds counted from the end. */
  function PySlice<T>(s: seq<T>, lo: int, hi: int): (r: seq<T>)
    ensures |r| <= |s|
  {
    var a, b := SliceBound(lo, |s|), SliceBound(hi, |s|);
    if a < b then s[a..b] else []
  }

  function ProjectAll(s: seq<Record>): (ctx: seq<ContextEntry>)
    ensures |ctx| == |s|
    ensures forall k :: 0 <= k < |s| ==> ctx[k] == Project(s[k])
  {
    seq(|s|, k requires 0 <= k < |s| => Project(s[k]))
  }

  /** `_get_context_around`: the records from `index - before` to
      `index + after`, clipped to the list, without fingerprints. */
  function ContextAround(records: seq<Record>, index: int, before: int, after: int)
    : (ctx: seq<ContextEntry>)
    ensures 0 <= index < |records| && 0 <= before && 0 <= after ==>
      var start := if index - before > 0 then index - before else 0;
      var end := if index + after + 1 < |records| then index + after + 1 else |records|;
      && |ctx| == end - start <= before + after + 1
      && (forall k :: 0 <= k < |ctx| ==> ctx[k] == Project(records[start + k]))
      && ctx[index - start] == Project(records[index])
  {
    var start := if index - before > 0 then index - before else 0;
    var end := if index + after + 1 < |records| then index + after + 1 else |records|;
    ProjectAll(PySlice(records, start, end))
  }

  /** `messages_with_current[:-1][-40:]`: the up to `width` records just
      before the last one, which is the new message itself. (A width of 0
      would be Python's `[-0:]`, the whole list.) */
  function RecentContext(snapshot: seq<Record>, width: nat): (ctx: seq<ContextEntry>)
    ensures snapshot != [] && 0 < width ==>
      var n := |snapshot| - 1;
      && |ctx| == (if n < width then n else width)
      && forall k :: 0 <= k < |ctx| ==> ctx[k] == Project(snapshot[n - |ctx| + k])
  {
    ProjectAll(PySlice(PySlice(snapshot, 0, -1), -(width as int), |snapshot|))
  }
}
