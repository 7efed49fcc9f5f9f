/**
 * The leaderboard view (script.js line 232): a copy of the local entries
 * sorted by score, highest first, of which the first five are shown. The
 * browser's array sort is stable, so the model sorts stably by insertion.
 */
module Leaderboard {

  datatype Entry = Entry(name: string, score: int)

  /** The entries the page starts with (script.js line 2). */
  const INITIAL: seq<Entry> := [Entry("BouncerX", 850), Entry("ProShot", 520)]

  /** How many entries the view shows. */
  const SHOWN: nat := 5

  ghost predicate Descending(s: seq<Entry>) {
    forall i, j :: 0 <= i < j < |s| ==> s[i].score >= s[j].score
  }

  /**
   * Puts `e` into a descending list ahead of every entry that does not score
   * more, so entries with equal scores keep their order.
   */
  function Insert(e: Entry, t: seq<Entry>): (r: seq<Entry>)
    requires Descending(t)
    ensures Descending(r)
    ensures multiset(r) == multiset(t) + multiset{e}
    ensures |r| == |t| + 1 && (r[0] == e || (t != [] && r[0] == t[0]))
  {
    if t == [] || t[0].score <= e.score then [e] + t
    else
      var rest := Insert(e, t[1..]);
      assert t == [t[0]] + t[1..];
      ConsDescending(t[0], rest);
      [t[0]] + rest
  }

  /** An entry that scores at least as much as the head of a descending list can go in front of it. */
  lemma ConsDescending(x: Entry, s: seq<Entry>)
    requires Descending(s)
    requires s != [] ==> s[0].score <= x.score
    ensures Descending([x] + s)
  {
    var r := [x] + s;
    forall i, j | 0 <= i < j < |r| ensures r[i].score >= r[j].score {
      assert r[j] == s[j - 1];
      if i > 0 {
        assert r[i] == s[i - 1];
      }
    }
  }

  /** Sorts entries by score, highest first. */
  function SortByScore(s: seq<Entry>): (r: seq<Entry>)
    ensures Descending(r)
    ensures multiset(r) == multiset(s)
    ensures |r| == |s|
  {
    if s == [] then []
    else
      assert s == [s[0]] + s[1..];
      Insert(s[0], SortByScore(s[1..]))
  }

  function Min(a: nat, b: nat): nat {
    if a <= b then a else b
  }

  /**
   * The entries the view shows: as many as there are, up to five, highest
   * score first; every entry left out scores no more than every entry shown.
   */
  function TopScores(board: seq<Entry>): (shown: seq<Entry>)
    ensures |shown| == Min(SHOWN, |board|)
    ensures Descending(shown)
    ensures multiset(shown) <= multiset(board)
    ensures forall x, y :: x in multiset(board) - multiset(shown) && y in shown ==> x.score <= y.score
  {
    var sorted := SortByScore(board);
    PrefixDominates(sorted, Min(SHOWN, |board|));
    sorted[..Min(SHOWN, |board|)]
  }

  /** In a descending list every entry past position k scores no more than any before it. */
  lemma PrefixDominates(sorted: seq<Entry>, k: nat)
    requires Descending(sorted) && k <= |sorted|
    ensures multiset(sorted[..k]) <= multiset(sorted)
    ensures forall x, y :: x in multiset(sorted) - multiset(sorted[..k]) && y in sorted[..k] ==> x.score <= y.score
  {
    var pre, post := sorted[..k], sorted[k..];
    assert sorted == pre + post;
    assert multiset(sorted) - multiset(pre) == multiset(post);
    forall x, y | x in multiset(sorted) - multiset(pre) && y in pre
      ensures x.score <= y.score
    {
      assert x in post;
      var j :| 0 <= j < |post| && post[j] == x;
      var i :| 0 <= i < k && pre[i] == y;
      assert sorted[k + j] == x && sorted[i] == y;
    }
  }

  /** The starting board is shown in full, best entry first. */
  lemma InitialView()
    ensures TopScores(INITIAL) == INITIAL
  {
    var s := SortByScore(INITIAL);
    assert INITIAL[1..] == [Entry("ProShot", 520)];
    assert SortByScore(INITIAL[1..]) == [Entry("ProShot", 520)];
  }
}
