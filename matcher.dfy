/**
 * The context matcher `getRelevantContext`: each topic scores the total length
 * of its keywords found in the lower-cased query; the first topic with the
 * highest positive score wins, and no positive score means no context.
 */
module Matcher {
  import opened Wrappers
  import opened Strings
  import opened Catalog

  /**
   * The score of a list of keywords against the lower-cased query `q`: the sum
   * of the lengths of those keywords whose lower-cased form occurs in `q`.
   */
  function KeywordScore(keywords: seq<string>, q: string): nat
  {
    if keywords == [] then 0
    else
      var last := keywords[|keywords| - 1];
      KeywordScore(keywords[..|keywords| - 1], q) + (if Contains(q, Lower(last)) then |last| else 0)
  }

  /** The score of one topic against the lower-cased query `q`. */
  function Score(t: Topic, q: string): nat
  {
    KeywordScore(t.keywords, q)
  }

  /**
   * Among the first `n` topics, topic `b` is the one the scan keeps: its score
   * is positive, no topic in the range scores more and every topic before it
   * scores strictly less (a later topic must beat it to replace it).
   */
  predicate LeadsAmong(topics: seq<Topic>, q: string, n: int, b: int)
  {
    && 0 <= b < n <= |topics|
    && Score(topics[b], q) > 0
    && (forall j :: 0 <= j < n ==> Score(topics[j], q) <= Score(topics[b], q))
    && (forall j :: 0 <= j < b ==> Score(topics[j], q) < Score(topics[b], q))
  }

  /** Topic `i` is the best match for `q` over the whole catalog. */
  predicate IsBestMatch(topics: seq<Topic>, q: string, i: int)
  {
    LeadsAmong(topics, q, |topics|, i)
  }

  /** No keyword of any topic occurs in `q`. */
  predicate NoKeywordOccurs(topics: seq<Topic>, q: string)
  {
    forall i, k :: 0 <= i < |topics| && 0 <= k < |topics[i].keywords| ==> !Contains(q, Lower(topics[i].keywords[k]))
  }

  /** With non-empty keywords, a score is zero exactly when none of the keywords occurs. */
  lemma {:induction false} KeywordScoreZeroIff(keywords: seq<string>, q: string)
    requires forall k :: 0 <= k < |keywords| ==> |keywords[k]| > 0
    ensures KeywordScore(keywords, q) == 0 <==> forall k :: 0 <= k < |keywords| ==> !Contains(q, Lower(keywords[k]))
  {
    if keywords != [] {
      var init := keywords[..|keywords| - 1];
      KeywordScoreZeroIff(init, q);
      assert forall k :: 0 <= k < |init| ==> init[k] == keywords[k];
    }
  }

  /** Over a well-formed catalog, every topic scores zero exactly when no keyword occurs. */
  lemma AllScoresZeroIff(topics: seq<Topic>, q: string)
    requires WellFormed(topics)
    ensures (forall i :: 0 <= i < |topics| ==> Score(topics[i], q) == 0) <==> NoKeywordOccurs(topics, q)
  {
    forall i | 0 <= i < |topics|
      ensures Score(topics[i], q) == 0 <==> forall k :: 0 <= k < |topics[i].keywords| ==> !Contains(q, Lower(topics[i].keywords[k]))
    {
      KeywordScoreZeroIff(topics[i].keywords, q);
    }
  }

  /** The best match is determined uniquely by the catalog and the query. */
  lemma BestMatchUnique(topics: seq<Topic>, q: string, i: int, j: int)
    requires IsBestMatch(topics, q, i) && IsBestMatch(topics, q, j)
    ensures i == j
  {
  }

  /**
   * The index the scan over the first `n` topics holds: it moves to topic
   * `n - 1` only when that topic scores strictly more than the current best
   * (which is 0 before any topic has scored).
   */
  function BestAmong(topics: seq<Topic>, q: string, n: nat): (r: Option<nat>)
    requires n <= |topics|
    ensures r.None? ==> forall j :: 0 <= j < n ==> Score(topics[j], q) == 0
    ensures r.Some? ==> LeadsAmong(topics, q, n, r.value)
  {
    if n == 0 then None
    else
      var previous := BestAmong(topics, q, n - 1);
      var best := if previous.Some? then Score(topics[previous.value], q) else 0;
      if Score(topics[n - 1], q) > best then Some(n - 1) else previous
  }

  /** What `getRelevantContext(query)` returns over the catalog `topics`. */
  function RelevantContext(topics: seq<Topic>, query: string): Option<Topic>
  {
    match BestAmong(topics, Lower(query), |topics|)
    case None => None
    case Some(i) => Some(topics[i])
  }

  /**
   * The matcher picks no topic exactly when every topic scores zero, which
   * over a well-formed catalog means no keyword occurs in the lower-cased
   * query; otherwise it picks the first topic of maximal score, an element of
   * the catalog.
   */
  lemma RelevantContextSpec(topics: seq<Topic>, query: string)
    ensures var r := RelevantContext(topics, query);
      && (r.None? <==> forall i :: 0 <= i < |topics| ==> Score(topics[i], Lower(query)) == 0)
      && (WellFormed(topics) ==> (r.None? <==> NoKeywordOccurs(topics, Lower(query))))
      && (r.Some? ==> r.value in topics && exists i :: IsBestMatch(topics, Lower(query), i) && r.value == topics[i])
  {
    if WellFormed(topics) {
      AllScoresZeroIff(topics, Lower(query));
    }
    var b := BestAmong(topics, Lower(query), |topics|);
    if b.Some? {
      assert IsBestMatch(topics, Lower(query), b.value);
    }
  }

  /**
   * `getRelevantContext(query)` over the catalog `topics` (the route passes
   * `legalReferenceData` and the trimmed query): the nested loops of lines
   * 484-495 and the final check of line 497.
   */
  method GetRelevantContext(topics: seq<Topic>, query: string) returns (r: Option<Topic>)
    ensures r == RelevantContext(topics, query)
  {
    var q := Lower(query);
    var bestMatch: Option<Topic> := None;
    var bestScore: nat := 0;
    ghost var bestIndex: Option<nat> := None;
    var i := 0;
    while i < |topics|
      invariant 0 <= i <= |topics|
      invariant bestIndex == BestAmong(topics, q, i)
      invariant bestIndex.None? ==> bestMatch.None? && bestScore == 0
      invariant bestIndex.Some? ==> && bestIndex.value < i
                                    && bestMatch == Some(topics[bestIndex.value])
                                    && bestScore == Score(topics[bestIndex.value], q)
                                    && bestScore > 0
    {
      var topic := topics[i];
      var score: nat := 0;
      var k := 0;
      while k < |topic.keywords|
        invariant 0 <= k <= |topic.keywords|
        invariant score == KeywordScore(topic.keywords[..k], q)
      {
        var keyword := topic.keywords[k];
        assert topic.keywords[..k + 1][..k] == topic.keywords[..k];
        if Contains(q, Lower(keyword)) {
          score := score + |keyword|;
        }
        k := k + 1;
      }
      assert topic.keywords[..k] == topic.keywords;
      if score > bestScore {
        bestScore := score;
        bestMatch := Some(topic);
        bestIndex := Some(i);
      }
      i := i + 1;
    }
    r := if bestMatch.Some? && bestScore > 0 then bestMatch else None;
  }
}
