/** The high-score table shared by the profile service
    (src/services/supabaseService.ts) and the top-level app (App.tsx): append
    the new entry, sort by descending score with the platform's stable sort,
    keep the first LEADERBOARD_SIZE entries. */
module Leaderboard {
  import opened Constants

  datatype Entry = Entry(name: string, score: int)

  /** Non-increasing scores from front to back. */
  predicate SortedDesc(s: seq<Entry>) {
    forall i, j :: 0 <= i < j < |s| ==> s[i].score >= s[j].score
  }

  /** The entries of `s` carrying score `k`, in order. Two lists with the same
      entries per score, one of them sorted, are the stable sort of each
      other. */
  function WithScore(s: seq<Entry>, k: int): (r: seq<Entry>)
    ensures |r| <= |s|
  {
    if s == [] then []
    else (if s[0].score == k then [s[0]] else []) + WithScore(s[1..], k)
  }

  /** Insert `x` into a list after every leading entry scoring at least as
      much: into a sorted list, after all entries of equal score, which is
      where a stable sort puts an entry that came last. */
  function Insert(x: Entry, s: seq<Entry>): (r: seq<Entry>)
    ensures |r| == |s| + 1
  {
    if s == [] then [x]
    else if s[0].score >= x.score then [s[0]] + Insert(x, s[1..])
    else [x] + s
  }

  /** Insertion adds exactly the one entry. */
  lemma {:induction false} InsertPerm(x: Entry, s: seq<Entry>)
    ensures multiset(Insert(x, s)) == multiset(s) + multiset{x}
  {
    if s != [] && s[0].score >= x.score {
      InsertPerm(x, s[1..]);
      assert s == [s[0]] + s[1..];
    }
  }

  /** The descending stable sort `sort((a, b) => b.score - a.score)`, as an
      insertion sort from the front of the input. */
  function SortDesc(s: seq<Entry>): (r: seq<Entry>)
    ensures |r| == |s|
  {
    if s == [] then [] else Insert(s[|s| - 1], SortDesc(s[..|s| - 1]))
  }

  function MinInt(a: int, b: int): int { if a <= b then a else b }

  /** `[...board, entry].sort(...).slice(0, LEADERBOARD_SIZE)`. */
  function Merge(board: seq<Entry>, entry: Entry): seq<Entry> {
    SortDesc(board + [entry])[..MinInt(|board| + 1, LEADERBOARD_SIZE)]
  }

  lemma {:induction false} InsertSorted(x: Entry, s: seq<Entry>)
    requires SortedDesc(s)
    ensures SortedDesc(Insert(x, s))
    ensures forall y :: y in Insert(x, s) ==> y in s || y == x
  {
    if s != [] && s[0].score >= x.score {
      InsertSorted(x, s[1..]);
      var r := Insert(x, s);
      forall i, j | 0 <= i < j < |r| ensures r[i].score >= r[j].score {
        if i == 0 {
          assert r[j] in Insert(x, s[1..]);
          assert r[j] in s[1..] || r[j] == x;
        }
      }
    }
  }

  /** The sort yields a descending permutation of its input. */
  lemma SortDescSpec(s: seq<Entry>)
    ensures SortedDesc(SortDesc(s))
    ensures multiset(SortDesc(s)) == multiset(s)
  {
    SortDescSorted(s);
    SortDescPerm(s);
  }

  lemma {:induction false} SortDescSorted(s: seq<Entry>)
    ensures SortedDesc(SortDesc(s))
  {
    if s != [] {
      SortDescSorted(s[..|s| - 1]);
      InsertSorted(s[|s| - 1], SortDesc(s[..|s| - 1]));
    }
  }

  lemma {:induction false} SortDescPerm(s: seq<Entry>)
    ensures multiset(SortDesc(s)) == multiset(s)
  {
    if s != [] {
      var init := s[..|s| - 1];
      SortDescPerm(init);
      InsertPerm(s[|s| - 1], SortDesc(init));
      assert s == init + [s[|s| - 1]];
    }
  }

  lemma {:induction false} WithScoreAppend(a: seq<Entry>, b: seq<Entry>, k: int)
    ensures WithScore(a + b, k) == WithScore(a, k) + WithScore(b, k)
  {
    if a != [] {
      assert (a + b)[1..] == a[1..] + b;
      WithScoreAppend(a[1..], b, k);
    } else {
      assert a + b == b;
    }
  }

  lemma {:induction false} WithScoreNone(s: seq<Entry>, k: int)
    requires forall i :: 0 <= i < |s| ==> s[i].score < k
    ensures WithScore(s, k) == []
  {
    if s != [] {
      WithScoreNone(s[1..], k);
    }
  }

  lemma SortedTail(s: seq<Entry>)
    requires s != [] && SortedDesc(s)
    ensures SortedDesc(s[1..])
  {
    forall i, j | 0 <= i < j < |s| - 1 ensures s[1..][i].score >= s[1..][j].score {
      assert s[1..][i] == s[i + 1] && s[1..][j] == s[j + 1];
    }
  }

  lemma WithScoreCons(e: Entry, s: seq<Entry>, k: int)
    ensures WithScore([e] + s, k) == (if e.score == k then [e] else []) + WithScore(s, k)
  {
    assert ([e] + s)[1..] == s;
  }

  /** In a sorted list headed below k, nothing scores k. */
  lemma SortedBelow(s: seq<Entry>, k: int)
    requires SortedDesc(s) && s != [] && s[0].score < k
    ensures WithScore(s, k) == []
  {
    forall i | 0 <= i < |s| ensures s[i].score < k {
      assert s[0].score >= s[i].score;
    }
    WithScoreNone(s, k);
  }

  lemma {:induction false} InsertStable(x: Entry, s: seq<Entry>, k: int)
    requires SortedDesc(s)
    ensures WithScore(Insert(x, s), k) == WithScore(s, k) + (if x.score == k then [x] else [])
  {
    if s == [] {
      WithScoreCons(x, [], k);
    } else if s[0].score >= x.score {
      SortedTail(s);
      InsertStable(x, s[1..], k);
      WithScoreCons(s[0], Insert(x, s[1..]), k);
      WithScoreCons(s[0], s[1..], k);
      assert [s[0]] + s[1..] == s;
    } else {
      WithScoreCons(x, s, k);
      if x.score == k {
        SortedBelow(s, k);
      }
    }
  }

  /** Stability: for every score the entries carrying it keep their input
      order, so ties are ranked by who was on the board first. */
  lemma {:induction false} SortDescStable(s: seq<Entry>, k: int)
    ensures WithScore(SortDesc(s), k) == WithScore(s, k)
  {
    if s != [] {
      var init := s[..|s| - 1];
      var x := s[|s| - 1];
      SortDescStable(init, k);
      SortDescSorted(init);
      InsertStable(x, SortDesc(init), k);
      assert s == init + [x];
      WithScoreLast(init, x, k);
    }
  }

  lemma WithScoreLast(init: seq<Entry>, x: Entry, k: int)
    ensures WithScore(init + [x], k) == WithScore(init, k) + (if x.score == k then [x] else [])
  {
    WithScoreAppend(init, [x], k);
    assert [x][1..] == [];
  }

  /** Cutting a sorted list after m entries leaves nothing behind that
      scores above anything kept. */
  lemma TopOfSorted(sorted: seq<Entry>, m: nat)
    requires m <= |sorted| && SortedDesc(sorted)
    ensures forall x: Entry, y: Entry :: x in multiset(sorted) - multiset(sorted[..m]) && y in sorted[..m] ==>
              x.score <= y.score
  {
    var r := sorted[..m];
    var rest := sorted[m..];
    assert sorted == r + rest;
    forall x: Entry, y: Entry | x in multiset(sorted) - multiset(r) && y in r
      ensures x.score <= y.score
    {
      assert x in rest;
      var i :| 0 <= i < |rest| && rest[i] == x;
      var j :| 0 <= j < |r| && r[j] == y;
      assert sorted[j] == y && sorted[m + i] == x;
    }
  }

  lemma PrefixSorted(s: seq<Entry>, m: nat)
    requires m <= |s| && SortedDesc(s)
    ensures SortedDesc(s[..m]) && multiset(s[..m]) <= multiset(s)
  {
    assert s == s[..m] + s[m..];
  }

  /** The merged board: at most LEADERBOARD_SIZE entries, descending, drawn
      from the old board plus the new entry, and nothing left out scores
      above anything kept. */
  lemma MergeSpec(board: seq<Entry>, entry: Entry)
    ensures |Merge(board, entry)| == MinInt(|board| + 1, LEADERBOARD_SIZE)
    ensures |Merge(board, entry)| <= LEADERBOARD_SIZE
    ensures SortedDesc(Merge(board, entry))
    ensures multiset(Merge(board, entry)) <= multiset(board + [entry])
    ensures forall x: Entry, y: Entry ::
              x in multiset(board + [entry]) - multiset(Merge(board, entry)) && y in Merge(board, entry) ==>
              x.score <= y.score
  {
    var all := board + [entry];
    var m := MinInt(|board| + 1, LEADERBOARD_SIZE);
    SortDescSpec(all);
    PrefixSorted(SortDesc(all), m);
    TopOfSorted(SortDesc(all), m);
  }

  lemma {:induction false} InsertKeepsPrefix(x: Entry, s: seq<Entry>, n: nat)
    requires n <= |s|
    requires forall i :: 0 <= i < n ==> s[i].score >= x.score
    ensures Insert(x, s)[..n] == s[..n]
  {
    if n > 0 {
      InsertKeepsPrefix(x, s[1..], n - 1);
      assert Insert(x, s) == [s[0]] + Insert(x, s[1..]);
    }
  }

  lemma {:induction false} SortDescOfSorted(s: seq<Entry>)
    requires SortedDesc(s)
    ensures SortDesc(s) == s
  {
    if s != [] {
      var init := s[..|s| - 1];
      SortDescOfSorted(init);
      InsertKeepsPrefix(s[|s| - 1], init, |init|);
      assert Insert(s[|s| - 1], init) == init + [s[|s| - 1]] by {
        InsertAtEnd(s[|s| - 1], init);
      }
      assert init + [s[|s| - 1]] == s;
    }
  }

  lemma {:induction false} InsertAtEnd(x: Entry, s: seq<Entry>)
    requires forall i :: 0 <= i < |s| ==> s[i].score >= x.score
    ensures Insert(x, s) == s + [x]
  {
    if s != [] {
      InsertAtEnd(x, s[1..]);
      assert s == [s[0]] + s[1..];
    }
  }

  /** A sorted full board is left as it was when the new score does not beat
      the lowest one kept: ties go to the entry already on the board. */
  lemma {:induction false} MergeTooLow(board: seq<Entry>, entry: Entry)
    requires SortedDesc(board) && |board| >= LEADERBOARD_SIZE
    requires entry.score <= board[LEADERBOARD_SIZE - 1].score
    ensures Merge(board, entry) == board[..LEADERBOARD_SIZE]
  {
    var all := board + [entry];
    assert all[..|all| - 1] == board;
    SortDescOfSorted(board);
    assert SortDesc(all) == Insert(entry, board);
    InsertKeepsPrefix(entry, board, LEADERBOARD_SIZE);
  }

  /** On a sorted board the new entry lands after every entry scoring at
      least as much as it does. */
  lemma {:induction false} MergeOfSorted(board: seq<Entry>, entry: Entry)
    requires SortedDesc(board)
    ensures SortDesc(board + [entry]) == Insert(entry, board)
  {
    var all := board + [entry];
    assert all[..|all| - 1] == board;
    SortDescOfSorted(board);
  }
}
