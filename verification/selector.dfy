/** `selectBestModel`: scores every registry entry, ranks them with a stable
    descending sort, and reports the top entry, a clamped confidence, the top
    entry's reasoning and up to three alternatives. */
module Selector {
  import opened Strings
  import opened Catalog
  import opened Analyzer
  import opened Scorer

  /** A registry entry with its registry position, score and fragments. */
  datatype Scored = Scored(index: nat, model: Model, score: int, fragments: seq<Reason>)

  datatype Selection = Selection(
    selectedModel: Model,
    confidence: int,
    reasoning: string,
    alternatives: seq<Model>
  )

  const Fallback := "best overall match for your requirements"

  function Min(a: int, b: int): (r: int)
    ensures r <= a && r <= b && (r == a || r == b)
  {
    if a <= b then a else b
  }

  /** Scores every registry entry. Each entry carries its registry position,
      which is what the stable sort keeps in order among equal scores. */
  function ScoreAll(c: Criteria, registry: seq<Model>): (r: seq<Scored>)
    ensures |r| == |registry|
    ensures forall i :: 0 <= i < |r| ==> r[i].index == i && r[i].model == registry[i]
    ensures DistinctIndices(r)
  {
    seq(|registry|, i requires 0 <= i < |registry| =>
      Scored(i, registry[i], Score(c, registry[i]), Fragments(c, registry[i])))
  }

  /** The order the stable descending sort produces: higher score first, and
      on equal scores the earlier registry entry first. */
  predicate Outranks(a: Scored, b: Scored) {
    a.score > b.score || (a.score == b.score && a.index < b.index)
  }

  predicate Ranked(s: seq<Scored>) {
    forall i, j :: 0 <= i < j < |s| ==> Outranks(s[i], s[j])
  }

  predicate DistinctIndices(s: seq<Scored>) {
    forall i, j :: 0 <= i < j < |s| ==> s[i].index != s[j].index
  }

  /** An entry that outranks x and every entry of s outranks every entry of
      any rearrangement of s with x added. */
  lemma OutranksAll(y: Scored, x: Scored, s: seq<Scored>, u: seq<Scored>)
    requires Outranks(y, x)
    requires forall k :: 0 <= k < |s| ==> Outranks(y, s[k])
    requires multiset(u) == multiset(s) + multiset{x}
    ensures forall k :: 0 <= k < |u| ==> Outranks(y, u[k])
  {
    forall k | 0 <= k < |u|
      ensures Outranks(y, u[k])
    {
      assert u[k] in multiset(u);
      if u[k] != x {
        assert u[k] in multiset(s);
        var j :| 0 <= j < |s| && s[j] == u[k];
      }
    }
  }

  /** A rearrangement of s holds no registry position that s does not. */
  lemma IndexAbsent(s: seq<Scored>, u: seq<Scored>, i: nat)
    requires forall k :: 0 <= k < |s| ==> s[k].index != i
    requires multiset(u) == multiset(s)
    ensures forall k :: 0 <= k < |u| ==> u[k].index != i
  {
    forall k | 0 <= k < |u|
      ensures u[k].index != i
    {
      assert u[k] in multiset(s);
      var j :| 0 <= j < |s| && s[j] == u[k];
    }
  }

  /** Places x in front of the first entry it outranks. */
  function Insert(x: Scored, s: seq<Scored>): (r: seq<Scored>)
    requires Ranked(s)
    requires forall k :: 0 <= k < |s| ==> s[k].index != x.index
    ensures Ranked(r)
    ensures multiset(r) == multiset(s) + multiset{x}
  {
    if |s| == 0 then [x]
    else if Outranks(x, s[0]) then [x] + s
    else
      var t := Insert(x, s[1..]);
      assert s == [s[0]] + s[1..];
      OutranksAll(s[0], x, s[1..], t);
      [s[0]] + t
  }

  /** Stable insertion sort, descending by score. */
  function Sort(s: seq<Scored>): (r: seq<Scored>)
    requires DistinctIndices(s)
    ensures Ranked(r)
    ensures multiset(r) == multiset(s)
  {
    if |s| == 0 then []
    else
      var t := Sort(s[1..]);
      assert s == [s[0]] + s[1..];
      IndexAbsent(s[1..], t, s[0].index);
      Insert(s[0], t)
  }

  /** Outranking is transitive, so a sequence in which each entry outranks
      the next is ranked. */
  lemma {:induction false} RankedByNeighbours(t: seq<Scored>)
    requires forall i :: 0 <= i < |t| - 1 ==> Outranks(t[i], t[i + 1])
    ensures Ranked(t)
  {
    if |t| > 1 {
      var u := t[1..];
      RankedByNeighbours(u);
      forall i, j | 0 <= i < j < |t|
        ensures Outranks(t[i], t[j])
      {
        if i == 0 {
          if j > 1 {
            assert Outranks(u[0], u[j - 1]);
          }
        } else {
          assert Outranks(u[i - 1], u[j - 1]);
        }
      }
    }
  }

  /** Two ranked permutations of the same entries start with the same entry. */
  lemma RankedHeadsAgree(s: seq<Scored>, t: seq<Scored>)
    requires Ranked(s) && Ranked(t) && |s| > 0 && |t| > 0
    requires multiset(s) == multiset(t)
    ensures s[0] == t[0]
  {
    assert s[0] in multiset(t);
    var j :| 0 <= j < |t| && t[j] == s[0];
    assert t[0] in multiset(s);
    var i :| 0 <= i < |s| && s[i] == t[0];
  }

  lemma TailMultiset(s: seq<Scored>)
    requires |s| > 0
    ensures multiset(s[1..]) == multiset(s) - multiset{s[0]}
  {
    assert s == [s[0]] + s[1..];
  }

  /** Two ranked permutations of the same entries are the same sequence: the
      ranking does not depend on how the stable sort is carried out. */
  lemma {:induction false} RankedUnique(s: seq<Scored>, t: seq<Scored>)
    requires Ranked(s) && Ranked(t)
    requires multiset(s) == multiset(t)
    ensures s == t
    decreases |s|
  {
    assert |t| == |multiset(t)| == |multiset(s)| == |s|;
    if |s| > 0 {
      RankedHeadsAgree(s, t);
      TailMultiset(s);
      TailMultiset(t);
      RankedUnique(s[1..], t[1..]);
      assert s == [s[0]] + s[1..] && t == [t[0]] + t[1..];
    }
  }

  /** The registry, scored and ranked. */
  function Rank(c: Criteria, registry: seq<Model>): (r: seq<Scored>)
    ensures Ranked(r)
    ensures multiset(r) == multiset(ScoreAll(c, registry))
    ensures |r| == |registry|
  {
    var s := ScoreAll(c, registry);
    var r := Sort(s);
    assert |r| == |multiset(r)| == |multiset(s)| == |s|;
    r
  }

  /** The earliest position holding the largest value. */
  function FirstMax(xs: seq<int>): (k: nat)
    requires |xs| > 0
    ensures k < |xs|
    ensures forall j :: 0 <= j < |xs| ==> xs[j] <= xs[k]
    ensures forall j :: 0 <= j < k ==> xs[j] < xs[k]
  {
    if |xs| == 1 then 0
    else
      var last := |xs| - 1;
      var k := FirstMax(xs[..last]);
      assert forall j :: 0 <= j < last ==> xs[..last][j] == xs[j];
      if xs[last] > xs[k] then last else k
  }

  /** The registry's scores, position by position. */
  function Scores(c: Criteria, registry: seq<Model>): (r: seq<int>)
    ensures |r| == |registry|
    ensures forall j :: 0 <= j < |registry| ==> r[j] == Score(c, registry[j])
  {
    seq(|registry|, j requires 0 <= j < |registry| => Score(c, registry[j]))
  }

  /** Reference argmax: the earliest registry position holding the highest score. */
  function FirstBest(c: Criteria, registry: seq<Model>): (k: nat)
    requires |registry| > 0
    ensures k < |registry|
    ensures forall j :: 0 <= j < |registry| ==> Score(c, registry[j]) <= Score(c, registry[k])
    ensures forall j :: 0 <= j < k ==> Score(c, registry[j]) < Score(c, registry[k])
  {
    FirstMax(Scores(c, registry))
  }

  /** Only one position is both a highest score and earlier than every tie. */
  lemma FirstBestIsUnique(c: Criteria, registry: seq<Model>, i: int)
    requires 0 <= i < |registry|
    requires forall j :: 0 <= j < |registry| ==> Score(c, registry[j]) <= Score(c, registry[i])
    requires forall j :: 0 <= j < i ==> Score(c, registry[j]) < Score(c, registry[i])
    ensures FirstBest(c, registry) == i
  {
    var k := FirstBest(c, registry);
    assert !(k < i);
    assert !(i < k);
  }

  /** `Math.min(95, Math.max(60, score))`. */
  function Clamp(score: int): (r: int)
    ensures 60 <= r <= 95
    ensures 60 <= score <= 95 ==> r == score
    ensures score < 60 ==> r == 60
    ensures score > 95 ==> r == 95
  {
    if score < 60 then 60 else if score > 95 then 95 else score
  }

  function Phrases(fs: seq<Reason>): (r: seq<string>)
    ensures |r| == |fs|
    ensures forall k :: 0 <= k < |r| ==> r[k] == Phrase(fs[k]) && |r[k]| > 0
  {
    if |fs| == 0 then [] else [Phrase(fs[0])] + Phrases(fs[1..])
  }

  /** The top entry's fragments joined with ", ", or the fallback text when
      they join to the empty string. */
  function ReasoningText(fs: seq<Reason>): (r: string)
    ensures |fs| == 0 ==> r == Fallback
    ensures |fs| > 0 ==> r == Join(Phrases(fs), ", ")
    ensures |r| > 0
  {
    var joined := Join(Phrases(fs), ", ");
    if joined == "" then Fallback else joined
  }

  function Models(s: seq<Scored>): (r: seq<Model>)
    ensures |r| == |s|
    ensures forall k :: 0 <= k < |s| ==> r[k] == s[k].model
  {
    if |s| == 0 then [] else [s[0].model] + Models(s[1..])
  }

  /** Every ranked entry is some registry entry, scored as the scorer says. */
  lemma RankedEntryIsRegistryEntry(c: Criteria, registry: seq<Model>, p: int)
    requires 0 <= p < |registry|
    ensures Rank(c, registry)[p].index < |registry|
    ensures Rank(c, registry)[p] == ScoreAll(c, registry)[Rank(c, registry)[p].index]
  {
    var r := Rank(c, registry);
    var s := ScoreAll(c, registry);
    assert r[p] in multiset(s);
    var i :| 0 <= i < |s| && s[i] == r[p];
  }

  /** Every ranked entry's model is a registry entry. */
  lemma RankedModelsInRegistry(c: Criteria, registry: seq<Model>)
    ensures forall p :: 0 <= p < |Rank(c, registry)| ==> Rank(c, registry)[p].model in registry
  {
    forall p | 0 <= p < |Rank(c, registry)|
      ensures Rank(c, registry)[p].model in registry
    {
      RankedEntryIsRegistryEntry(c, registry, p);
    }
  }

  function Select(registry: seq<Model>, c: Criteria): (r: Selection)
    requires |registry| > 0
    ensures r.selectedModel in registry
    ensures 60 <= r.confidence <= 95
    ensures |r.alternatives| == Min(3, |registry| - 1)
    ensures forall k :: 0 <= k < |r.alternatives| ==> r.alternatives[k] in registry
    ensures |r.reasoning| > 0
  {
    var ranked := Rank(c, registry);
    var top := ranked[0];
    RankedModelsInRegistry(c, registry);
    var alternatives := Models(ranked[1..Min(4, |ranked|)]);
    Selection(top.model, Clamp(top.score), ReasoningText(top.fragments), alternatives)
  }

  /** Every scored registry entry holds some rank. */
  lemma EntryHasRank(s: seq<Scored>, t: seq<Scored>, j: int) returns (p: int)
    requires multiset(s) == multiset(t) && 0 <= j < |s|
    ensures 0 <= p < |t| && t[p] == s[j]
  {
    assert s[j] in multiset(t);
    p :| 0 <= p < |t| && t[p] == s[j];
  }

  /** The result is read off any stable descending ranking of the scored
      registry: its first entry is selected and the next three are the
      alternatives. */
  lemma SelectReadsAnyRanking(registry: seq<Model>, c: Criteria, t: seq<Scored>)
    requires |registry| > 0
    requires Ranked(t) && multiset(t) == multiset(ScoreAll(c, registry))
    ensures |t| == |registry|
    ensures Select(registry, c).selectedModel == t[0].model
    ensures Select(registry, c).confidence == Clamp(t[0].score)
    ensures Select(registry, c).reasoning == ReasoningText(t[0].fragments)
    ensures Select(registry, c).alternatives == Models(t[1..Min(4, |registry|)])
  {
    RankedUnique(Rank(c, registry), t);
  }

  /** The selected entry is the earliest registry entry holding the highest
      score: no entry scores more, and every earlier entry scores less. */
  lemma SelectPicksFirstBest(registry: seq<Model>, c: Criteria)
    requires |registry| > 0
    ensures Select(registry, c).selectedModel == registry[FirstBest(c, registry)]
    ensures Select(registry, c).confidence == Clamp(Score(c, registry[FirstBest(c, registry)]))
    ensures Select(registry, c).reasoning == ReasoningText(Fragments(c, registry[FirstBest(c, registry)]))
  {
    var r := Rank(c, registry);
    var s := ScoreAll(c, registry);
    RankedEntryIsRegistryEntry(c, registry, 0);
    var i := r[0].index;
    forall j | 0 <= j < |registry|
      ensures Score(c, registry[j]) <= Score(c, registry[i])
      ensures j < i ==> Score(c, registry[j]) < Score(c, registry[i])
    {
      var p := EntryHasRank(s, r, j);
      if p != 0 {
        assert Outranks(r[0], r[p]);
      }
    }
    FirstBestIsUnique(c, registry, i);
  }

  /** With neutral criteria the scored registry is the registry itself, in
      order, every entry scored 0 with no fragment; so it is already ranked. */
  lemma NeutralScoresRanked(registry: seq<Model>)
    ensures forall i :: 0 <= i < |registry| ==>
      ScoreAll(Neutral, registry)[i] == Scored(i, registry[i], 0, [])
    ensures Ranked(ScoreAll(Neutral, registry))
  {
    var s := ScoreAll(Neutral, registry);
    forall i | 0 <= i < |s|
      ensures s[i] == Scored(i, registry[i], 0, [])
    {
      NeutralScoresZero(registry[i]);
    }
  }

  lemma ModelsOfNeutral(registry: seq<Model>, lo: int, hi: int)
    requires 0 <= lo <= hi <= |registry|
    ensures Models(ScoreAll(Neutral, registry)[lo..hi]) == registry[lo..hi]
  {
    NeutralScoresRanked(registry);
  }

  /** With neutral criteria (what the empty prompt yields) every score is 0,
      so the registry order alone decides: the first entry is selected at the
      minimum confidence with the fallback reasoning, and the next three
      entries are the alternatives. */
  lemma NeutralSelectsRegistryOrder(registry: seq<Model>)
    requires |registry| > 0
    ensures Select(registry, Neutral) ==
      Selection(registry[0], 60, Fallback, registry[1..Min(4, |registry|)])
  {
    NeutralScoresRanked(registry);
    SelectReadsAnyRanking(registry, Neutral, ScoreAll(Neutral, registry));
    ModelsOfNeutral(registry, 1, Min(4, |registry|));
  }
}
