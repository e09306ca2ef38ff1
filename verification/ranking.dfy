/**
 * The weak-question ranking that opens generateRecommendations: annotate every
 * catalog question with its rating and gap, keep the gaps of at least 2, sort
 * stably by descending gap, and keep the first ten.
 */
module Ranking {
  import opened AssessmentData
  import opened Scoring
  import opened Wrappers

  /** A catalog question with its rating and its gap `maxScore - rating`. */
  datatype Weak = Weak(question: Question, score: int, gap: int)

  /** The smallest gap that counts as a significant opportunity. */
  const MinGap: int := 2

  /** How many opportunities the ranking keeps. */
  const TopCount: nat := 10

  /** Question `q` annotated with its rating under `r` (0 when unanswered) and its gap. */
  function Annotated(q: Question, r: Responses): Weak
  {
    Weak(q, RatingOf(r, q.id), q.maxScore - RatingOf(r, q.id))
  }

  /** Every question of `qs`, in order, annotated with its rating and gap. */
  function Annotate(qs: seq<Question>, r: Responses): (ws: seq<Weak>)
    ensures |ws| == |qs|
    ensures forall i :: 0 <= i < |qs| ==> ws[i] == Annotated(qs[i], r)
  {
    seq(|qs|, i requires 0 <= i < |qs| => Annotated(qs[i], r))
  }

  /** The entries whose gap is at least 2, in their original order. */
  function Significant(ws: seq<Weak>): (s: seq<Weak>)
    ensures forall w :: w in s <==> w in ws && w.gap >= MinGap
  {
    if |ws| == 0 then []
    else (if ws[0].gap >= MinGap then [ws[0]] else []) + Significant(ws[1..])
  }

  /** The entries whose gap is exactly `g`, in their original order. */
  function WithGap(ws: seq<Weak>, g: int): (s: seq<Weak>)
    ensures forall w :: w in s <==> w in ws && w.gap == g
  {
    if |ws| == 0 then []
    else (if ws[0].gap == g then [ws[0]] else []) + WithGap(ws[1..], g)
  }

  /** Gaps never increase along `ws`. */
  predicate NonIncreasing(ws: seq<Weak>)
  {
    forall i, j :: 0 <= i < j < |ws| ==> ws[i].gap >= ws[j].gap
  }

  /** Selecting one gap distributes over concatenation. */
  lemma {:induction false} WithGapAppend(a: seq<Weak>, b: seq<Weak>, g: int)
    ensures WithGap(a + b, g) == WithGap(a, g) + WithGap(b, g)
  {
    if |a| == 0 {
      assert a + b == b;
    } else {
      assert (a + b)[1..] == a[1..] + b;
      WithGapAppend(a[1..], b, g);
    }
  }

  /** Dropping the small gaps keeps each remaining gap's entries, in order, and drops the rest. */
  lemma {:induction false} WithGapSignificant(ws: seq<Weak>, g: int)
    ensures WithGap(Significant(ws), g) == if g >= MinGap then WithGap(ws, g) else []
  {
    if |ws| > 0 {
      var head := if ws[0].gap >= MinGap then [ws[0]] else [];
      WithGapAppend(head, Significant(ws[1..]), g);
      WithGapSignificant(ws[1..], g);
    }
  }

  /**
   * Insert `x` into a gap-sorted list just before the first entry with a
   * strictly smaller gap, so that it follows every entry of equal gap.
   */
  function Insert(x: Weak, ws: seq<Weak>): (s: seq<Weak>)
    ensures multiset(s) == multiset(ws) + multiset{x}
  {
    if |ws| == 0 then [x]
    else if ws[0].gap < x.gap then [x] + ws
    else
      assert ws == [ws[0]] + ws[1..];
      [ws[0]] + Insert(x, ws[1..])
  }

  /** An entry whose gap bounds every gap of a gap-sorted list can head it. */
  lemma ConsSorted(h: Weak, t: seq<Weak>)
    requires NonIncreasing(t)
    requires forall j :: 0 <= j < |t| ==> h.gap >= t[j].gap
    ensures NonIncreasing([h] + t)
  {
    forall i, j | 0 <= i < j < |[h] + t|
      ensures ([h] + t)[i].gap >= ([h] + t)[j].gap
    {
      if i > 0 {
        assert ([h] + t)[i] == t[i - 1];
      }
      assert ([h] + t)[j] == t[j - 1];
    }
  }

  /** Inserting into a gap-sorted list keeps it gap-sorted. */
  lemma {:induction false} InsertSorted(x: Weak, ws: seq<Weak>)
    requires NonIncreasing(ws)
    ensures NonIncreasing(Insert(x, ws))
  {
    if |ws| == 0 {
    } else if ws[0].gap < x.gap {
      ConsSorted(x, ws);
    } else {
      var rest := Insert(x, ws[1..]);
      assert NonIncreasing(ws[1..]);
      InsertSorted(x, ws[1..]);
      forall j | 0 <= j < |rest|
        ensures ws[0].gap >= rest[j].gap
      {
        assert rest[j] in multiset(rest);
        if rest[j] != x {
          assert rest[j] in multiset(ws[1..]);
          var k :| 0 <= k < |ws[1..]| && ws[1..][k] == rest[j];
          assert ws[0].gap >= ws[k + 1].gap;
        }
      }
      ConsSorted(ws[0], rest);
    }
  }

  /** A gap-sorted list has no entry of a gap bigger than its head's. */
  lemma WithGapAboveHead(ws: seq<Weak>, g: int)
    requires NonIncreasing(ws) && |ws| > 0 && g > ws[0].gap
    ensures WithGap(ws, g) == []
  {
    forall w | w in ws
      ensures w.gap < g
    {
      var k :| 0 <= k < |ws| && ws[k] == w;
      assert ws[0].gap >= ws[k].gap;
    }
  }

  /** Inserting into a gap-sorted list appends `x` to the entries of its own gap and moves nothing else. */
  lemma {:induction false} InsertStable(x: Weak, ws: seq<Weak>, g: int)
    requires NonIncreasing(ws)
    ensures WithGap(Insert(x, ws), g) == WithGap(ws, g) + (if x.gap == g then [x] else [])
  {
    if |ws| == 0 || ws[0].gap < x.gap {
      FrontStable(x, ws, g);
    } else {
      TailSorted(ws);
      InsertStable(x, ws[1..], g);
      ConsStable(ws[0], ws[1..], Insert(x, ws[1..]), g, if x.gap == g then [x] else []);
      HeadAndTail(ws);
    }
  }

  /** Putting `x` in front of a gap-sorted list whose gaps are all smaller appends it to its own gap's entries. */
  lemma FrontStable(x: Weak, ws: seq<Weak>, g: int)
    requires NonIncreasing(ws) && (|ws| == 0 || ws[0].gap < x.gap)
    ensures WithGap([x] + ws, g) == WithGap(ws, g) + (if x.gap == g then [x] else [])
  {
    WithGapAppend([x], ws, g);
    if x.gap == g && |ws| > 0 {
      WithGapAboveHead(ws, g);
    }
  }

  /** A common head keeps an equation between per-gap selections, up to the same appended tail. */
  lemma ConsStable(h: Weak, t: seq<Weak>, u: seq<Weak>, g: int, extra: seq<Weak>)
    requires WithGap(u, g) == WithGap(t, g) + extra
    ensures WithGap([h] + u, g) == WithGap([h] + t, g) + extra
  {
    WithGapCons(h, u, g);
    WithGapCons(h, t, g);
    AppendAssoc(if h.gap == g then [h] else [], WithGap(t, g), extra);
  }

  /** Selecting one gap from a list with a head entry. */
  lemma WithGapCons(h: Weak, t: seq<Weak>, g: int)
    ensures WithGap([h] + t, g) == (if h.gap == g then [h] else []) + WithGap(t, g)
  {
    assert ([h] + t)[1..] == t;
  }

  /** Concatenation is associative. */
  lemma AppendAssoc<T>(a: seq<T>, b: seq<T>, c: seq<T>)
    ensures a + (b + c) == (a + b) + c
  {
  }

  /** Inserting the next input entry into the sorted earlier entries keeps every gap's entries in input order. */
  lemma InsertStep(init: seq<Weak>, x: Weak, sorted: seq<Weak>)
    requires NonIncreasing(sorted)
    requires forall g :: WithGap(sorted, g) == WithGap(init, g)
    ensures forall g :: WithGap(Insert(x, sorted), g) == WithGap(init + [x], g)
  {
    forall g: int
      ensures WithGap(Insert(x, sorted), g) == WithGap(init + [x], g)
    {
      InsertStable(x, sorted, g);
      WithGapAppend(init, [x], g);
    }
  }

  /**
   * The stable sort by descending gap (`sort((a, b) => b.gap - a.gap)`),
   * as an insertion sort: the result is gap-sorted, a permutation of the
   * input, and keeps the input order among entries of equal gap.
   */
  function SortByGap(ws: seq<Weak>): (s: seq<Weak>)
    ensures NonIncreasing(s)
    ensures multiset(s) == multiset(ws)
    ensures forall g :: WithGap(s, g) == WithGap(ws, g)
  {
    if |ws| == 0 then []
    else
      var init, x := ws[..|ws| - 1], ws[|ws| - 1];
      var sorted := SortByGap(init);
      assert ws == init + [x];
      InsertStep(init, x, sorted);
      InsertSorted(x, sorted);
      Insert(x, sorted)
  }

  /** A non-empty list's first entry heads the selection of its own gap. */
  lemma WithGapHead(ws: seq<Weak>)
    requires |ws| > 0
    ensures WithGap(ws, ws[0].gap) == [ws[0]] + WithGap(ws[1..], ws[0].gap)
    ensures forall g :: g != ws[0].gap ==> WithGap(ws, g) == WithGap(ws[1..], g)
  {
  }

  /** Two lists with equal heads and the same entries of every gap have tails with the same entries of every gap. */
  lemma WithGapTails(s: seq<Weak>, t: seq<Weak>)
    requires |s| > 0 && |t| > 0 && s[0] == t[0]
    requires forall g :: WithGap(s, g) == WithGap(t, g)
    ensures forall g :: WithGap(s[1..], g) == WithGap(t[1..], g)
  {
    WithGapHead(s);
    WithGapHead(t);
    forall k: int
      ensures WithGap(s[1..], k) == WithGap(t[1..], k)
    {
      if k == s[0].gap {
        var a, b := WithGap(s[1..], k), WithGap(t[1..], k);
        assert [s[0]] + a == [t[0]] + b;
        assert a == ([s[0]] + a)[1..];
        assert b == ([t[0]] + b)[1..];
      }
    }
  }

  /** Two gap-sorted lists with the same entries of every gap start with the same entry. */
  lemma SortedSameHead(s: seq<Weak>, t: seq<Weak>)
    requires NonIncreasing(s) && NonIncreasing(t) && |s| > 0 && |t| > 0
    requires forall g :: WithGap(s, g) == WithGap(t, g)
    ensures s[0] == t[0]
  {
    var g, h := s[0].gap, t[0].gap;
    WithGapHead(s);
    WithGapHead(t);
    assert s[0] in WithGap(t, g);
    assert t[0] in WithGap(s, h);
    assert g == h by {
      var i :| 0 <= i < |t| && t[i] == s[0];
      var j :| 0 <= j < |s| && s[j] == t[0];
      assert t[0].gap >= t[i].gap;
      assert s[0].gap >= s[j].gap;
    }
    assert WithGap(s, g)[0] == WithGap(t, g)[0];
  }

  /** The tail of a gap-sorted list is gap-sorted. */
  lemma TailSorted(s: seq<Weak>)
    requires NonIncreasing(s) && |s| > 0
    ensures NonIncreasing(s[1..])
  {
  }

  /** A non-empty list is its head followed by its tail. */
  lemma HeadAndTail<T>(s: seq<T>)
    requires |s| > 0
    ensures s == [s[0]] + s[1..]
  {
  }

  /** Lists with the same head and the same tail are equal. */
  lemma SameHeadAndTail<T>(s: seq<T>, t: seq<T>)
    requires |s| > 0 && |t| > 0 && s[0] == t[0] && s[1..] == t[1..]
    ensures s == t
  {
    assert s == [s[0]] + s[1..];
    assert t == [t[0]] + t[1..];
  }

  /**
   * Sortedness and stability determine the result: two gap-sorted lists with
   * the same entries of every gap, in the same order, are equal.
   */
  lemma {:induction false} SortedStableUnique(s: seq<Weak>, t: seq<Weak>)
    requires NonIncreasing(s) && NonIncreasing(t)
    requires forall g :: WithGap(s, g) == WithGap(t, g)
    ensures s == t
  {
    if |s| == 0 || |t| == 0 {
      if |s| > 0 {
        WithGapHead(s);
      }
      if |t| > 0 {
        WithGapHead(t);
      }
    } else {
      SortedSameHead(s, t);
      WithGapTails(s, t);
      TailSorted(s);
      TailSorted(t);
      SortedStableUnique(s[1..], t[1..]);
      SameHeadAndTail(s, t);
    }
  }

  /**
   * Any gap-sorted list that keeps the input order within each gap is the
   * result of SortByGap: the model coincides with every stable sort.
   */
  lemma SortByGapIsTheStableSort(ws: seq<Weak>, t: seq<Weak>)
    requires NonIncreasing(t)
    requires forall g :: WithGap(t, g) == WithGap(ws, g)
    ensures t == SortByGap(ws)
  {
    SortedStableUnique(t, SortByGap(ws));
  }

  /** The first `n` entries, or all of them when there are fewer (`slice(0, n)`). */
  function Take<T>(s: seq<T>, n: nat): (t: seq<T>)
    ensures |t| == if |s| < n then |s| else n
    ensures t <= s
  {
    if |s| < n then s else s[..n]
  }

  /** The selection of one gap from a prefix is a prefix of the selection from the whole list. */
  lemma WithGapPrefix(ws: seq<Weak>, k: nat, g: int)
    requires k <= |ws|
    ensures WithGap(ws[..k], g) <= WithGap(ws, g)
  {
    assert ws == ws[..k] + ws[k..];
    WithGapAppend(ws[..k], ws[k..], g);
  }

  /** The opportunities ranked and cut to the first ten. */
  function TopOf(all: seq<Weak>): seq<Weak>
  {
    Take(SortByGap(Significant(all)), TopCount)
  }

  /** Every ranked entry is a significant entry of the input, and the ranking is gap-sorted. */
  lemma TopMembers(all: seq<Weak>)
    ensures forall i :: 0 <= i < |TopOf(all)| ==> TopOf(all)[i] in all && TopOf(all)[i].gap >= MinGap
    ensures NonIncreasing(TopOf(all))
  {
    var sorted := SortByGap(Significant(all));
    var top := TopOf(all);
    forall i | 0 <= i < |top|
      ensures top[i] in all && top[i].gap >= MinGap
    {
      assert top[i] == sorted[i];
      assert sorted[i] in multiset(sorted);
      assert sorted[i] in Significant(all);
    }
  }

  /** Within each gap, the ranking lists a prefix of the input's entries of that gap, in input order. */
  lemma TopStable(all: seq<Weak>, g: int)
    ensures WithGap(TopOf(all), g) <= WithGap(all, g)
  {
    var sorted := SortByGap(Significant(all));
    var top := TopOf(all);
    WithGapPrefix(sorted, |top|, g);
    assert sorted[..|top|] == top;
    WithGapSignificant(all, g);
  }

  /** TopStable for every gap at once. */
  lemma TopStableAll(all: seq<Weak>)
    ensures forall g :: WithGap(TopOf(all), g) <= WithGap(all, g)
  {
    forall g: int {
      TopStable(all, g);
    }
  }

  /** Every significant entry left out of the ranking is outranked by all ten ranked entries. */
  lemma TopCompleteAll(all: seq<Weak>)
    ensures forall w :: w in all && w.gap >= MinGap && w !in TopOf(all) ==>
              |TopOf(all)| == TopCount && forall i :: 0 <= i < |TopOf(all)| ==> TopOf(all)[i].gap >= w.gap
  {
    forall w | w in all && w.gap >= MinGap && w !in TopOf(all) {
      TopComplete(all, w);
    }
  }

  /** A significant entry left out of the ranking was cut by a full list of entries with gaps at least as big. */
  lemma TopComplete(all: seq<Weak>, w: Weak)
    requires w in all && w.gap >= MinGap && w !in TopOf(all)
    ensures |TopOf(all)| == TopCount
    ensures forall i :: 0 <= i < |TopOf(all)| ==> TopOf(all)[i].gap >= w.gap
  {
    var sorted := SortByGap(Significant(all));
    var top := TopOf(all);
    assert w in Significant(all);
    assert w in multiset(Significant(all));
    assert w in multiset(sorted);
    var k :| 0 <= k < |sorted| && sorted[k] == w;
    assert top == sorted[..|top|];
    assert k >= |top|;
    forall i | 0 <= i < |top|
      ensures top[i].gap >= w.gap
    {
      assert top[i] == sorted[i];
    }
  }

  /**
   * The ten biggest opportunities: questions of `qs` with gap at least 2,
   * by descending gap, ties in catalog order, at most ten of them.
   */
  function WeakQuestions(qs: seq<Question>, r: Responses): (top: seq<Weak>)
    ensures |top| <= TopCount
    ensures forall i :: 0 <= i < |top| ==> top[i] in Annotate(qs, r) && top[i].gap >= MinGap
    ensures NonIncreasing(top)
    ensures forall g :: WithGap(top, g) <= WithGap(Annotate(qs, r), g)
    ensures forall w :: w in Annotate(qs, r) && w.gap >= MinGap && w !in top ==>
              |top| == TopCount && forall i :: 0 <= i < |top| ==> top[i].gap >= w.gap
  {
    var all := Annotate(qs, r);
    TopMembers(all);
    TopStableAll(all);
    TopCompleteAll(all);
    TopOf(all)
  }

  /** The first entry of channel `c` (`filter(q => q.channel === c)[0]`), if there is one. */
  function FirstOfChannel(ws: seq<Weak>, c: Channel): (o: Option<Weak>)
    ensures o.None? <==> forall i :: 0 <= i < |ws| ==> ws[i].question.channel != c
    ensures o.Some? ==> exists i :: 0 <= i < |ws| && ws[i] == o.value && ws[i].question.channel == c
                                    && forall j :: 0 <= j < i ==> ws[j].question.channel != c
  {
    if |ws| == 0 then None
    else if ws[0].question.channel == c then Some(ws[0])
    else
      var o := FirstOfChannel(ws[1..], c);
      assert o.Some? ==> exists i :: 0 <= i < |ws| && ws[i] == o.value && ws[i].question.channel == c
                                     && forall j :: 0 <= j < i ==> ws[j].question.channel != c by {
        if o.Some? {
          var i :| 0 <= i < |ws| - 1 && ws[1..][i] == o.value && ws[1..][i].question.channel == c
                   && forall j :: 0 <= j < i ==> ws[1..][j].question.channel != c;
          assert ws[i + 1] == o.value;
          assert forall j :: 0 <= j < i + 1 ==> ws[j].question.channel != c by {
            forall j | 0 <= j < i + 1
              ensures ws[j].question.channel != c
            {
              if j > 0 {
                assert ws[j] == ws[1..][j - 1];
              }
            }
          }
        }
      }
      o
  }

  /** In a gap-sorted list, a channel's first entry has the biggest gap of that channel. */
  lemma FirstOfChannelHasMaxGap(ws: seq<Weak>, c: Channel)
    requires NonIncreasing(ws)
    requires FirstOfChannel(ws, c).Some?
    ensures forall w :: w in ws && w.question.channel == c ==> FirstOfChannel(ws, c).value.gap >= w.gap
  {
    var first := FirstOfChannel(ws, c).value;
    var i :| 0 <= i < |ws| && ws[i] == first && ws[i].question.channel == c
             && forall j :: 0 <= j < i ==> ws[j].question.channel != c;
    forall w | w in ws && w.question.channel == c
      ensures first.gap >= w.gap
    {
      var k :| 0 <= k < |ws| && ws[k] == w;
      assert k >= i;
      if k > i {
        assert ws[i].gap >= ws[k].gap;
      }
    }
  }

  /** When every entry qualifies, the filter keeps the list as it is. */
  lemma {:induction false} SignificantKeepsAll(ws: seq<Weak>)
    requires forall i :: 0 <= i < |ws| ==> ws[i].gap >= MinGap
    ensures Significant(ws) == ws
  {
    if |ws| > 0 {
      SignificantKeepsAll(ws[1..]);
      assert ws == [ws[0]] + ws[1..];
    }
  }

  /** Sorting a list that is already gap-sorted changes nothing. */
  lemma SortByGapKeepsSorted(ws: seq<Weak>)
    requires NonIncreasing(ws)
    ensures SortByGap(ws) == ws
  {
    SortByGapIsTheStableSort(ws, ws);
  }

  /** The lookup finds the entry at `k` when it is of channel `c` and no earlier entry is. */
  lemma FirstOfChannelAt(ws: seq<Weak>, c: Channel, k: nat)
    requires k < |ws| && ws[k].question.channel == c
    requires forall j :: 0 <= j < k ==> ws[j].question.channel != c
    ensures FirstOfChannel(ws, c) == Some(ws[k])
  {
    var o := FirstOfChannel(ws, c);
    var i :| 0 <= i < |ws| && ws[i] == o.value && ws[i].question.channel == c
             && forall j :: 0 <= j < i ==> ws[j].question.channel != c;
    assert i == k;
  }

  /** Selecting a gap that no entry has yields nothing. */
  lemma {:induction false} WithGapAbsent(ws: seq<Weak>, g: int)
    requires forall i :: 0 <= i < |ws| ==> ws[i].gap != g
    ensures WithGap(ws, g) == []
  {
    if |ws| > 0 {
      WithGapAbsent(ws[1..], g);
    }
  }

  /** The filter distributes over concatenation. */
  lemma {:induction false} SignificantAppend(a: seq<Weak>, b: seq<Weak>)
    ensures Significant(a + b) == Significant(a) + Significant(b)
  {
    if |a| > 0 {
      SignificantAppend(a[1..], b);
      assert (a + b)[1..] == a[1..] + b;
    } else {
      assert a + b == b;
    }
  }

  /** When no entry qualifies, the filter keeps nothing. */
  lemma {:induction false} SignificantDropsAll(ws: seq<Weak>)
    requires forall i :: 0 <= i < |ws| ==> ws[i].gap < MinGap
    ensures Significant(ws) == []
  {
    if |ws| > 0 {
      SignificantDropsAll(ws[1..]);
    }
  }

  /**
   * Every catalog question is worth a positive number of points, so a rating
   * within [0, maxScore] leaves a gap within [0, maxScore].
   */
  lemma CatalogGapsInRange(r: Responses)
    requires forall i :: 0 <= i < |Questions| ==> 0 <= RatingOf(r, Questions[i].id) <= Questions[i].maxScore
    ensures forall i :: 0 <= i < |Questions| ==>
      0 < Questions[i].maxScore && 0 <= Annotate(Questions, r)[i].gap <= Questions[i].maxScore
  {
    CatalogShape();
  }
}
