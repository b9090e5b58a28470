/**
 * Scores and ranking on the employer dashboard
 * (ai_app_frontend/src/components/EmployerDashboard.js): the total of a
 * candidate's numeric scores, the total shown on a candidate card, and the
 * stable high-to-low sort of the fetched list.
 */
module Ranking {
  import opened Wrappers

  /** One answer as the candidate list returns it; a `null` score is `None`. */
  datatype AnswerOut = AnswerOut(question: string, kind: string, selected: Option<string>,
                                 answerText: Option<string>, score: Option<real>,
                                 feedback: Option<string>)

  /** One candidate as the candidate list returns it. */
  datatype CandidateRecord = CandidateRecord(id: int, name: string, phone: string, answers: seq<AnswerOut>)

  /** `answers.map(a => a.evaluation_score).filter(s => typeof s === 'number')`. */
  function NumericScores(answers: seq<AnswerOut>): (scores: seq<real>)
    ensures |scores| <= |answers|
    ensures scores == [] <==> forall i :: 0 <= i < |answers| ==> answers[i].score.None?
  {
    if answers == [] then []
    else (if answers[0].score.Some? then [answers[0].score.value] else []) + NumericScores(answers[1..])
  }

  /** `scores.reduce((sum, s) => sum + s, 0)`: a left fold from 0. */
  function Sum(scores: seq<real>): real {
    SumFrom(0.0, scores)
  }

  function SumFrom(acc: real, scores: seq<real>): real
    decreases |scores|
  {
    if scores == [] then acc else SumFrom(acc + scores[0], scores[1..])
  }

  /**
   * `getTotalScore`, the sort key: the sum of the numeric scores, which is the
   * per-answer sum with `null` counting 0, and 0 when no answer is scored.
   */
  function TotalScore(c: CandidateRecord): (t: real)
    ensures t == ScoreOf(c.answers)
    ensures (forall i :: 0 <= i < |c.answers| ==> c.answers[i].score.None?) ==> t == 0.0
  {
    NumericSum(c.answers);
    var scores := NumericScores(c.answers);
    if |scores| > 0 then Sum(scores) else 0.0
  }

  /**
   * The card total before `toFixed(1)`: `null` exactly when no answer has a numeric
   * score, and otherwise the sort key.
   */
  function CardTotal(c: CandidateRecord): (r: Option<real>)
    ensures r.None? <==> forall i :: 0 <= i < |c.answers| ==> c.answers[i].score.None?
    ensures r.Some? ==> r.value == TotalScore(c)
  {
    var scores := NumericScores(c.answers);
    if |scores| > 0 then Some(Sum(scores)) else None
  }

  /** Reference definition of the aggregate: each answer's score, or nothing for a `null` one. */
  function ScoreOf(answers: seq<AnswerOut>): real {
    if answers == [] then 0.0 else answers[0].score.GetOr(0.0) + ScoreOf(answers[1..])
  }

  lemma {:induction false} SumFromShift(acc: real, scores: seq<real>)
    ensures SumFrom(acc, scores) == acc + SumFrom(0.0, scores)
    decreases |scores|
  {
    if scores != [] {
      SumFromShift(acc + scores[0], scores[1..]);
      SumFromShift(scores[0], scores[1..]);
    }
  }

  lemma {:induction false} NumericSum(answers: seq<AnswerOut>)
    ensures Sum(NumericScores(answers)) == ScoreOf(answers)
  {
    if answers != [] {
      NumericSum(answers[1..]);
      var rest := NumericScores(answers[1..]);
      if answers[0].score.Some? {
        var x := answers[0].score.value;
        assert NumericScores(answers) == [x] + rest;
        assert ([x] + rest)[1..] == rest;
        SumFromShift(x, rest);
      } else {
        assert NumericScores(answers) == rest;
      }
    }
  }

  /** Most points an answer of type `kind` can earn: 1 for multiple choice, 2 for free text. */
  function PointsFor(kind: string): real {
    if kind == "mc" then 1.0 else if kind == "text" then 2.0 else 0.0
  }

  /** Most points the answers together can earn. */
  function MaxPoints(answers: seq<AnswerOut>): real {
    if answers == [] then 0.0 else PointsFor(answers[0].kind) + MaxPoints(answers[1..])
  }

  /**
   * When each score lies between 0 and its type's points, the total lies between 0 and
   * the answers' maximum: 1 per multiple-choice and 2 per free-text answer.
   */
  lemma {:induction false} TotalScoreBounds(answers: seq<AnswerOut>)
    requires forall i :: 0 <= i < |answers| && answers[i].score.Some? ==>
               0.0 <= answers[i].score.value <= PointsFor(answers[i].kind)
    ensures 0.0 <= ScoreOf(answers) <= MaxPoints(answers)
  {
    if answers != [] {
      TotalScoreBounds(answers[1..]);
    }
  }

  // ---------------------------------------------------------------------------
  // The ranking: `data.sort((a, b) => getTotalScore(b) - getTotalScore(a))`.
  // The sort is stated for any key, so that its proofs need not look into the key.

  /** Non-increasing by `key`. */
  ghost predicate Descending<T>(s: seq<T>, key: T -> real) {
    forall i, j :: 0 <= i < j < |s| ==> key(s[i]) >= key(s[j])
  }

  /** The elements of `s` whose key is `v`, in their order in `s`. */
  function WithKey<T>(s: seq<T>, key: T -> real, v: real): seq<T>
    decreases |s|
  {
    if s == [] then []
    else WithKey(s[..|s| - 1], key, v) + (if key(s[|s| - 1]) == v then [s[|s| - 1]] else [])
  }

  /** Inserting `x` into a descending list: after every entry whose key is at least `x`'s. */
  function Insert<T>(s: seq<T>, x: T, key: T -> real): (r: seq<T>)
    ensures |r| == |s| + 1
    decreases |s|
  {
    if s == [] then [x]
    else if key(s[|s| - 1]) < key(x) then Insert(s[..|s| - 1], x, key) + [s[|s| - 1]]
    else s + [x]
  }

  /** Stable sort by non-increasing key (insertion sort). */
  function SortDescending<T>(s: seq<T>, key: T -> real): (r: seq<T>)
    ensures |r| == |s|
    decreases |s|
  {
    if s == [] then [] else Insert(SortDescending(s[..|s| - 1], key), s[|s| - 1], key)
  }

  /** The dashboard's ranking of the fetched candidates. */
  function SortedByScore(s: seq<CandidateRecord>): (r: seq<CandidateRecord>)
    ensures Descending(r, TotalScore) && multiset(r) == multiset(s)
    ensures forall v :: WithKey(r, TotalScore, v) == WithKey(s, TotalScore, v)
  {
    SortIsDescending(s, TotalScore);
    SortPermutes(s, TotalScore);
    SortIsStableAll(s, TotalScore);
    SortDescending(s, TotalScore)
  }

  lemma {:induction false} InsertPermutes<T>(s: seq<T>, x: T, key: T -> real)
    ensures multiset(Insert(s, x, key)) == multiset(s) + multiset{x}
    decreases |s|
  {
    if s != [] {
      var init, last := s[..|s| - 1], s[|s| - 1];
      assert s == init + [last];
      if key(last) < key(x) {
        InsertPermutes(init, x, key);
      }
    }
  }

  /** A lower bound on the keys of `s` and of `x` bounds the keys of `Insert(s, x)`. */
  lemma InsertLowerBound<T>(s: seq<T>, x: T, key: T -> real, b: real)
    requires forall k :: 0 <= k < |s| ==> key(s[k]) >= b
    requires key(x) >= b
    ensures forall k :: 0 <= k < |Insert(s, x, key)| ==> key(Insert(s, x, key)[k]) >= b
  {
    InsertPermutes(s, x, key);
    var r := Insert(s, x, key);
    forall k | 0 <= k < |r| ensures key(r[k]) >= b {
      assert r[k] in multiset(r);
      if r[k] != x {
        assert r[k] in multiset(s);
        var j :| 0 <= j < |s| && s[j] == r[k];
      }
    }
  }

  lemma {:induction false} InsertDescending<T>(s: seq<T>, x: T, key: T -> real)
    requires Descending(s, key)
    ensures Descending(Insert(s, x, key), key)
    ensures |Insert(s, x, key)| == |s| + 1
    decreases |s|
  {
    if s != [] {
      var init, last := s[..|s| - 1], s[|s| - 1];
      if key(last) < key(x) {
        InsertDescending(init, x, key);
        InsertLowerBound(init, x, key, key(last));
        var r := Insert(init, x, key) + [last];
        assert forall i :: 0 <= i < |r| - 1 ==> r[i] == Insert(init, x, key)[i];
      }
    }
  }

  lemma {:induction false} InsertWithKey<T>(s: seq<T>, x: T, key: T -> real, v: real)
    ensures WithKey(Insert(s, x, key), key, v) == WithKey(s, key, v) + (if key(x) == v then [x] else [])
    decreases |s|
  {
    if s != [] {
      var init, last := s[..|s| - 1], s[|s| - 1];
      if key(last) < key(x) {
        var r := Insert(init, x, key) + [last];
        InsertWithKey(init, x, key, v);
        assert r[..|r| - 1] == Insert(init, x, key);
        if key(x) == v {
          assert key(last) != v;
        }
      } else {
        var r := s + [x];
        assert r[..|r| - 1] == s;
      }
    } else {
      assert [x][..0] == [];
    }
  }

  /** The sort returns a permutation of its input. */
  lemma {:induction false} SortPermutes<T>(s: seq<T>, key: T -> real)
    ensures multiset(SortDescending(s, key)) == multiset(s)
    decreases |s|
  {
    if s != [] {
      SortPermutes(s[..|s| - 1], key);
      InsertPermutes(SortDescending(s[..|s| - 1], key), s[|s| - 1], key);
      assert s == s[..|s| - 1] + [s[|s| - 1]];
    }
  }

  /** The sort orders from the highest key to the lowest. */
  lemma {:induction false} SortIsDescending<T>(s: seq<T>, key: T -> real)
    ensures Descending(SortDescending(s, key), key) && |SortDescending(s, key)| == |s|
    decreases |s|
  {
    if s != [] {
      SortIsDescending(s[..|s| - 1], key);
      InsertDescending(SortDescending(s[..|s| - 1], key), s[|s| - 1], key);
    }
  }

  /** Elements with equal keys keep their relative order. */
  lemma {:induction false} SortIsStable<T>(s: seq<T>, key: T -> real, v: real)
    ensures WithKey(SortDescending(s, key), key, v) == WithKey(s, key, v)
    decreases |s|
  {
    if s != [] {
      SortIsStable(s[..|s| - 1], key, v);
      InsertWithKey(SortDescending(s[..|s| - 1], key), s[|s| - 1], key, v);
    }
  }

  /** Stability for every key value at once. */
  lemma SortIsStableAll<T>(s: seq<T>, key: T -> real)
    ensures forall v :: WithKey(SortDescending(s, key), key, v) == WithKey(s, key, v)
  {
    forall v ensures WithKey(SortDescending(s, key), key, v) == WithKey(s, key, v) {
      SortIsStable(s, key, v);
    }
  }

  /** Every member of `WithKey(s, key, v)` is a member of `s` with key `v`. */
  lemma {:induction false} WithKeyMembers<T>(s: seq<T>, key: T -> real, v: real)
    ensures forall y :: y in WithKey(s, key, v) ==> y in s && key(y) == v
    decreases |s|
  {
    if s != [] {
      WithKeyMembers(s[..|s| - 1], key, v);
      assert forall y :: y in s[..|s| - 1] ==> y in s;
    }
  }

  /** The last element of a descending list has the smallest key. */
  lemma LastIsSmallest<T>(t: seq<T>, key: T -> real, y: T)
    requires Descending(t, key) && y in t
    ensures key(y) >= key(t[|t| - 1])
  {
    var k :| 0 <= k < |t| && t[k] == y;
  }

  /** Dropping the last element removes it from its key's sub-list only. */
  lemma WithKeyInit<T>(t: seq<T>, key: T -> real, v: real)
    requires t != []
    ensures var f := WithKey(t, key, v); var g := WithKey(t[..|t| - 1], key, v);
      if key(t[|t| - 1]) == v then f != [] && f[|f| - 1] == t[|t| - 1] && g == f[..|f| - 1] else g == f
  {
    var f := WithKey(t, key, v);
    var g := WithKey(t[..|t| - 1], key, v);
    if key(t[|t| - 1]) == v {
      assert f == g + [t[|t| - 1]];
      assert f[..|f| - 1] == g;
    }
  }

  /** Lists that agree on each key's sub-list are both empty or both not. */
  lemma FiltersAgreeOnEmpty<T>(t: seq<T>, u: seq<T>, key: T -> real)
    requires forall v :: WithKey(t, key, v) == WithKey(u, key, v)
    ensures t == [] <==> u == []
  {
    if t != [] {
      WithKeyInit(t, key, key(t[|t| - 1]));
      assert WithKey(u, key, key(t[|t| - 1])) != [];
    }
    if u != [] {
      WithKeyInit(u, key, key(u[|u| - 1]));
      assert WithKey(t, key, key(u[|u| - 1])) != [];
    }
  }

  /** Descending lists that agree on each key's sub-list end with the same element. */
  lemma FiltersAgreeOnLast<T>(t: seq<T>, u: seq<T>, key: T -> real)
    requires Descending(t, key) && Descending(u, key) && t != [] && u != []
    requires forall v :: WithKey(t, key, v) == WithKey(u, key, v)
    ensures t[|t| - 1] == u[|u| - 1]
  {
    var x, y := t[|t| - 1], u[|u| - 1];
    WithKeyInit(t, key, key(x));
    WithKeyInit(u, key, key(y));
    WithKeyMembers(t, key, key(y));
    WithKeyMembers(u, key, key(x));
    assert WithKey(t, key, key(y)) == WithKey(u, key, key(y));
    assert WithKey(t, key, key(x)) == WithKey(u, key, key(x));
    LastIsSmallest(t, key, y);
    LastIsSmallest(u, key, x);
  }

  /** Removing a common last element keeps the sub-lists in agreement. */
  lemma FiltersAgreeOnInit<T>(t': seq<T>, u': seq<T>, x: T, key: T -> real)
    requires forall v :: WithKey(t' + [x], key, v) == WithKey(u' + [x], key, v)
    ensures forall v :: WithKey(t', key, v) == WithKey(u', key, v)
  {
    var t, u := t' + [x], u' + [x];
    assert t[..|t| - 1] == t' && u[..|u| - 1] == u';
    forall v ensures WithKey(t', key, v) == WithKey(u', key, v) {
      WithKeyInit(t, key, v);
      WithKeyInit(u, key, v);
      assert WithKey(t, key, v) == WithKey(u, key, v);
    }
  }

  lemma DescendingInit<T>(t: seq<T>, key: T -> real)
    requires Descending(t, key) && t != []
    ensures Descending(t[..|t| - 1], key)
  {
  }

  /** Two descending lists that agree on each key's sub-list are the same list. */
  lemma {:induction false} DescendingFiltersDetermine<T>(t: seq<T>, u: seq<T>, key: T -> real)
    requires Descending(t, key) && Descending(u, key)
    requires forall v :: WithKey(t, key, v) == WithKey(u, key, v)
    ensures t == u
    decreases |t|
  {
    FiltersAgreeOnEmpty(t, u, key);
    if t != [] {
      FiltersAgreeOnLast(t, u, key);
      var t', u' := t[..|t| - 1], u[..|u| - 1];
      assert t == t' + [t[|t| - 1]];
      assert u == u' + [t[|t| - 1]];
      FiltersAgreeOnInit(t', u', t[|t| - 1], key);
      DescendingInit(t, key);
      DescendingInit(u, key);
      DescendingFiltersDetermine(t', u', key);
    }
  }

  /**
   * `SortDescending` is the only stable high-to-low order: any arrangement that is
   * descending and keeps each key's elements in input order equals it, so the
   * result does not depend on which stable algorithm `Array.prototype.sort` runs.
   */
  lemma StableSortUnique<T>(s: seq<T>, t: seq<T>, key: T -> real)
    requires Descending(t, key)
    requires forall v :: WithKey(t, key, v) == WithKey(s, key, v)
    ensures t == SortDescending(s, key)
  {
    SortIsDescending(s, key);
    forall v ensures WithKey(t, key, v) == WithKey(SortDescending(s, key), key, v) {
      SortIsStable(s, key, v);
    }
    DescendingFiltersDetermine(t, SortDescending(s, key), key);
  }

  /**
   * Where `Insert` puts `x`: at `j`, when the entry before `j` has a key at least
   * `x`'s and every entry from `j` on has a smaller one.
   */
  lemma {:induction false} InsertAt<T>(s: seq<T>, x: T, key: T -> real, j: nat)
    requires j <= |s|
    requires j > 0 ==> key(s[j - 1]) >= key(x)
    requires forall m :: j <= m < |s| ==> key(s[m]) < key(x)
    ensures Insert(s, x, key) == s[..j] + [x] + s[j..]
    decreases |s|
  {
    if |s| == j {
      assert s[..j] == s && s[j..] == [];
    } else {
      var init := s[..|s| - 1];
      assert init[..j] == s[..j];
      InsertAt(init, x, key, j);
      assert init[j..] + [s[|s| - 1]] == s[j..];
    }
  }

  /** Moves `a[i]` left into the sorted prefix `a[..i]`, leaving the rest of the array alone. */
  method InsertInPlace<T>(a: array<T>, i: nat, key: T -> real)
    requires i < a.Length
    modifies a
    ensures a[..i + 1] == Insert(old(a[..i]), old(a[i]), key)
    ensures a[i + 1..] == old(a[i + 1..])
  {
    var x := a[i];
    var k := key(x);
    ghost var s := a[..i];
    var j := i;
    while j > 0 && key(a[j - 1]) < k
      invariant 0 <= j <= i
      invariant forall m :: 0 <= m < j ==> a[m] == s[m]
      invariant forall m :: j < m <= i ==> a[m] == s[m - 1]
      invariant forall m :: i < m < a.Length ==> a[m] == old(a[m])
      invariant forall m :: j <= m < i ==> key(s[m]) < k
    {
      a[j] := a[j - 1];
      j := j - 1;
    }
    a[j] := x;
    InsertAt(s, x, key, j);
    assert a[..i + 1] == s[..j] + [x] + s[j..];
  }

  /** Insertion sort of `a` in place, by non-increasing key. */
  method SortInPlace<T>(a: array<T>, key: T -> real)
    modifies a
    ensures a[..] == SortDescending(old(a[..]), key)
  {
    ghost var input := a[..];
    var i := 0;
    while i < a.Length
      invariant 0 <= i <= a.Length
      invariant a[..i] == SortDescending(input[..i], key)
      invariant a[i..] == input[i..]
    {
      assert input[..i + 1][..i] == input[..i];
      assert a[i] == input[i];
      InsertInPlace(a, i, key);
      i := i + 1;
    }
    assert input[..a.Length] == input;
  }

  /**
   * `data.sort(...)` on the fetched array: each candidate is moved left past the
   * entries with a strictly smaller total, so equal totals never pass each other.
   */
  method SortByScore(a: array<CandidateRecord>)
    modifies a
    ensures a[..] == SortedByScore(old(a[..]))
    ensures Descending(a[..], TotalScore) && multiset(a[..]) == multiset(old(a[..]))
    ensures forall v :: WithKey(a[..], TotalScore, v) == WithKey(old(a[..]), TotalScore, v)
  {
    SortInPlace(a, TotalScore);
  }

  /** Totals 5 (one answer unscored) and 6: the second candidate is ranked first. */
  lemma TwoCandidateRanking(q: string)
    ensures var a := AnswerOut(q, "text", None, None, Some(5.0), None);
            var b := AnswerOut(q, "text", None, None, None, None);
            var c := AnswerOut(q, "text", None, None, Some(3.0), None);
            var first := CandidateRecord(1, "", "", [a, b]);
            var second := CandidateRecord(2, "", "", [c, c]);
            SortedByScore([first, second]) == [second, first]
  {
    var a := AnswerOut(q, "text", None, None, Some(5.0), None);
    var b := AnswerOut(q, "text", None, None, None, None);
    var c := AnswerOut(q, "text", None, None, Some(3.0), None);
    var first := CandidateRecord(1, "", "", [a, b]);
    var second := CandidateRecord(2, "", "", [c, c]);
    assert ScoreOf([b]) == 0.0 by {
      assert [b][1..] == [];
    }
    assert ScoreOf([c]) == 3.0 by {
      assert [c][1..] == [];
    }
    assert ScoreOf(first.answers) == 5.0 by {
      assert first.answers[1..] == [b];
    }
    assert ScoreOf(second.answers) == 6.0 by {
      assert second.answers[1..] == [c];
    }
    var s := [first, second];
    assert s[..1] == [first] && [first][..0] == [];
    assert SortDescending([first], TotalScore) == [first];
    assert TotalScore(first) < TotalScore(second);
    assert Insert([first], second, TotalScore) == Insert([], second, TotalScore) + [first];
  }
}
