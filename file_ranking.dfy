/**
 * The file-level vote of the localization combiner: the first `top_n` files
 * proposed by the model and by embedding retrieval are counted with a
 * `Counter`, and the distinct files are returned by `most_common()`, that is
 * by vote count, highest first, ties in the order the files entered the
 * counter.
 */
module FileRanking {

  import opened Sequences

  /** A repository-relative file path, as the localization files list them. */
  type File = string

  /** No value occurs twice in `s`. */
  predicate NoDuplicates(s: seq<File>) {
    forall i, j :: 0 <= i < j < |s| ==> s[i] != s[j]
  }

  /**
   * Python's slice `s[:n]` for any integer `n`: a non-negative bound keeps at
   * most `n` entries, a negative one drops `-n` entries from the end.
   */
  function Head(s: seq<File>, n: int): (r: seq<File>)
    ensures r <= s
    ensures n >= 0 ==> |r| == if n < |s| then n else |s|
    ensures n < 0 ==> |r| == if -n < |s| then |s| + n else 0
  {
    if n >= 0 then (if n < |s| then s[..n] else s)
    else (if -n < |s| then s[..|s| + n] else [])
  }

  /** The distinct values of `s`, each where it first occurs. */
  function Distinct(s: seq<File>): (d: seq<File>)
    ensures forall x :: x in d <==> x in s
    ensures NoDuplicates(d)
    ensures |d| <= |s|
  {
    if s == [] then []
    else
      var init := s[..|s| - 1];
      assert s == init + [s[|s| - 1]];
      var d' := Distinct(init);
      if s[|s| - 1] in d' then d' else d' + [s[|s| - 1]]
  }

  /**
   * A `collections.Counter`: `keys` in insertion order (a Python dict keeps
   * it) and `votes`, the count of every key.
   */
  datatype Counter = Counter(keys: seq<File>, votes: multiset<File>) {

    /** `counter[x] += 1` */
    function Add(x: File): (c: Counter)
      ensures c.votes[x] == votes[x] + 1
      ensures forall y :: y != x ==> c.votes[y] == votes[y]
      ensures |keys| <= |c.keys| <= |keys| + 1 && c.keys[..|keys|] == keys
      ensures votes[x] == 0 ==> c.keys == keys + [x]
      ensures votes[x] > 0 ==> c.keys == keys
    {
      Counter(if votes[x] == 0 then keys + [x] else keys, votes + multiset{x})
    }

    /** `counter.most_common()`: a stable sort of the keys by count, highest first. */
    function MostCommon(): (r: seq<File>)
      ensures multiset(r) == multiset(keys)
      ensures forall i :: 0 < i < |r| ==> votes[r[i - 1]] >= votes[r[i]]
    {
      SortByVotesPermutes(keys, votes);
      SortByVotesDescending(keys, votes);
      SortByVotes(keys, votes)
    }
  }

  /** The counter after `c[x] += 1` for every `x` of `s`, in order, starting empty. */
  function CounterOf(s: seq<File>): Counter {
    Counter(Distinct(s), multiset(s))
  }

  /** Puts `x` in front of the first entry of `t` that has no more votes than `x`. */
  function InsertByVotes(x: File, t: seq<File>, votes: multiset<File>): seq<File> {
    if t == [] || votes[x] >= votes[t[0]] then [x] + t
    else [t[0]] + InsertByVotes(x, t[1..], votes)
  }

  /**
   * Sorts `keys` by `votes`, highest first, keeping the order of `keys` among
   * equal counts (`sorted(..., reverse=True)` is stable).
   */
  function SortByVotes(keys: seq<File>, votes: multiset<File>): seq<File> {
    if keys == [] then [] else InsertByVotes(keys[0], SortByVotes(keys[1..], votes), votes)
  }

  /** Vote counts never increase along `r`. */
  ghost predicate ByVotesDescending(r: seq<File>, votes: multiset<File>) {
    forall i, j :: 0 <= i < j < |r| ==> votes[r[i]] >= votes[r[j]]
  }

  /** Among entries of `r` with equal counts, the one that occurs first in `p` comes first. */
  ghost predicate TiesInEncounterOrder(r: seq<File>, votes: multiset<File>, p: seq<File>) {
    && (forall k :: 0 <= k < |r| ==> r[k] in p)
    && forall i, j :: 0 <= i < j < |r| && votes[r[i]] == votes[r[j]] ==>
         FirstIndex(p, r[i]) < FirstIndex(p, r[j])
  }

  /** Every entry of `keys` occurs in `p`, and `keys` is ordered by first occurrence in `p`. */
  ghost predicate InEncounterOrder(keys: seq<File>, p: seq<File>) {
    && (forall k :: 0 <= k < |keys| ==> keys[k] in p)
    && forall i, j :: 0 <= i < j < |keys| ==> FirstIndex(p, keys[i]) < FirstIndex(p, keys[j])
  }

  // ---------------------------------------------------------------------------
  // The combination of combine.py:45-54
  // ---------------------------------------------------------------------------

  /** The files that vote: the first `topN` of each list, model files first. */
  function Ballot(modelLoc: seq<string>, retrieveLoc: seq<string>, topN: int): seq<string> {
    Head(modelLoc, topN) + Head(retrieveLoc, topN)
  }

  /** `combined_locs`: the keys of the filled counter, most common first. */
  function CombinedLocs(modelLoc: seq<string>, retrieveLoc: seq<string>, topN: int): (r: seq<string>)
    ensures forall f :: f in r <==> f in Head(modelLoc, topN) || f in Head(retrieveLoc, topN)
    ensures NoDuplicates(r)
    ensures |r| <= |Head(modelLoc, topN)| + |Head(retrieveLoc, topN)|
  {
    var p := Ballot(modelLoc, retrieveLoc, topN);
    MostCommonKeys(p);
    CounterOf(p).MostCommon()
  }

  // ---------------------------------------------------------------------------
  // Lemmas
  // ---------------------------------------------------------------------------

  lemma {:induction false} FirstIndexAppend(s: seq<File>, x: File, y: File)
    requires y in s
    ensures y in s + [x] && FirstIndex(s + [x], y) == FirstIndex(s, y)
  {
    if s[0] != y {
      assert (s + [x])[1..] == s[1..] + [x];
      FirstIndexAppend(s[1..], x, y);
    }
  }

  /** The counter's keys are ordered by where each file first occurs. */
  lemma {:induction false} DistinctInEncounterOrder(s: seq<File>)
    ensures InEncounterOrder(Distinct(s), s)
  {
    if s != [] {
      var init, x := s[..|s| - 1], s[|s| - 1];
      assert s == init + [x];
      DistinctInEncounterOrder(init);
      var d', d := Distinct(init), Distinct(s);
      forall k | 0 <= k < |d'|
        ensures FirstIndex(s, d'[k]) == FirstIndex(init, d'[k])
      {
        FirstIndexAppend(init, x, d'[k]);
      }
      if x !in d' {
        assert FirstIndex(s, x) == |init| by {
          assert s[|init|] == x && x !in s[..|init|];
        }
      }
    }
  }

  lemma {:induction false} InsertByVotesPermutes(x: File, t: seq<File>, votes: multiset<File>)
    ensures multiset(InsertByVotes(x, t, votes)) == multiset{x} + multiset(t)
    ensures |InsertByVotes(x, t, votes)| == |t| + 1
  {
    if t != [] && votes[x] < votes[t[0]] {
      InsertByVotesPermutes(x, t[1..], votes);
      assert t == [t[0]] + t[1..];
    }
  }

  lemma {:induction false} SortByVotesPermutes(keys: seq<File>, votes: multiset<File>)
    ensures multiset(SortByVotes(keys, votes)) == multiset(keys)
    ensures |SortByVotes(keys, votes)| == |keys|
  {
    if keys != [] {
      SortByVotesPermutes(keys[1..], votes);
      InsertByVotesPermutes(keys[0], SortByVotes(keys[1..], votes), votes);
      assert keys == [keys[0]] + keys[1..];
    }
  }

  /** Sorting by votes leaves the counts non-increasing, whatever the keys. */
  lemma {:induction false} SortByVotesDescending(keys: seq<File>, votes: multiset<File>)
    ensures ByVotesDescending(SortByVotes(keys, votes), votes)
  {
    if keys != [] {
      SortByVotesDescending(keys[1..], votes);
      InsertByVotesDescending(keys[0], SortByVotes(keys[1..], votes), votes);
    }
  }

  lemma InsertByVotesMembers(x: File, t: seq<File>, votes: multiset<File>)
    ensures forall y :: y in InsertByVotes(x, t, votes) <==> y == x || y in t
  {
    InsertByVotesPermutes(x, t, votes);
    forall y ensures y in InsertByVotes(x, t, votes) <==> y in multiset(InsertByVotes(x, t, votes)) {}
  }

  lemma {:induction false} InsertByVotesDescending(x: File, t: seq<File>, votes: multiset<File>)
    requires ByVotesDescending(t, votes)
    ensures ByVotesDescending(InsertByVotes(x, t, votes), votes)
  {
    if t != [] && votes[x] < votes[t[0]] {
      var rest := InsertByVotes(x, t[1..], votes);
      InsertByVotesDescending(x, t[1..], votes);
      InsertByVotesMembers(x, t[1..], votes);
      var r := [t[0]] + rest;
      forall i, j | 0 <= i < j < |r| ensures votes[r[i]] >= votes[r[j]] {
        assert r[j] == rest[j - 1] && r[j] in rest;
        if i > 0 { assert r[i] == rest[i - 1]; }
      }
    }
  }

  lemma {:induction false} InsertByVotesNoDuplicates(x: File, t: seq<File>, votes: multiset<File>)
    requires NoDuplicates(t) && x !in t
    ensures NoDuplicates(InsertByVotes(x, t, votes))
  {
    if t != [] && votes[x] < votes[t[0]] {
      var rest := InsertByVotes(x, t[1..], votes);
      InsertByVotesNoDuplicates(x, t[1..], votes);
      InsertByVotesMembers(x, t[1..], votes);
      var r := [t[0]] + rest;
      forall i, j | 0 <= i < j < |r| ensures r[i] != r[j] {
        assert r[j] == rest[j - 1] && r[j] in rest;
        if i > 0 { assert r[i] == rest[i - 1]; }
      }
    }
  }

  /** In a tie-ordered list, the head comes before every later entry with its count. */
  lemma TiesAfterHead(t: seq<File>, votes: multiset<File>, p: seq<File>, y: File)
    requires TiesInEncounterOrder(t, votes, p)
    requires t != [] && y in t[1..] && votes[y] == votes[t[0]]
    ensures t[0] in p && y in p && FirstIndex(p, t[0]) < FirstIndex(p, y)
  {
    var k :| 0 <= k < |t[1..]| && t[1..][k] == y;
    assert t[k + 1] == y;
  }

  /** Dropping the head keeps a list tie-ordered. */
  lemma TiesTail(t: seq<File>, votes: multiset<File>, p: seq<File>)
    requires TiesInEncounterOrder(t, votes, p) && t != []
    ensures TiesInEncounterOrder(t[1..], votes, p)
  {
    forall i, j | 0 <= i < j < |t[1..]| && votes[t[1..][i]] == votes[t[1..][j]]
      ensures FirstIndex(p, t[1..][i]) < FirstIndex(p, t[1..][j])
    {
      assert t[1..][i] == t[i + 1] && t[1..][j] == t[j + 1];
    }
  }

  lemma {:induction false} InsertByVotesTies(x: File, t: seq<File>, votes: multiset<File>, p: seq<File>)
    requires TiesInEncounterOrder(t, votes, p)
    requires x in p && forall k :: 0 <= k < |t| ==> FirstIndex(p, x) < FirstIndex(p, t[k])
    ensures TiesInEncounterOrder(InsertByVotes(x, t, votes), votes, p)
  {
    if t != [] && votes[x] < votes[t[0]] {
      var rest := InsertByVotes(x, t[1..], votes);
      TiesTail(t, votes, p);
      assert forall k :: 0 <= k < |t[1..]| ==> t[1..][k] == t[k + 1];
      InsertByVotesTies(x, t[1..], votes, p);
      InsertByVotesMembers(x, t[1..], votes);
      var r := [t[0]] + rest;
      forall k | 0 <= k < |r| ensures r[k] in p {
        if k > 0 { assert r[k] == rest[k - 1]; }
      }
      forall i, j | 0 <= i < j < |r| && votes[r[i]] == votes[r[j]]
        ensures FirstIndex(p, r[i]) < FirstIndex(p, r[j])
      {
        assert r[j] == rest[j - 1] && r[j] in rest;
        if i > 0 {
          assert r[i] == rest[i - 1];
        } else {
          TiesAfterHead(t, votes, p, r[j]);
        }
      }
    }
  }

  lemma {:induction false} SortByVotesProperties(keys: seq<File>, votes: multiset<File>, p: seq<File>)
    requires NoDuplicates(keys)
    requires InEncounterOrder(keys, p)
    ensures ByVotesDescending(SortByVotes(keys, votes), votes)
    ensures NoDuplicates(SortByVotes(keys, votes))
    ensures TiesInEncounterOrder(SortByVotes(keys, votes), votes, p)
  {
    if keys != [] {
      var t := SortByVotes(keys[1..], votes);
      SortByVotesProperties(keys[1..], votes, p);
      SortByVotesPermutes(keys[1..], votes);
      forall k | 0 <= k < |t|
        ensures t[k] in keys[1..] && FirstIndex(p, keys[0]) < FirstIndex(p, t[k])
      {
        assert t[k] in multiset(t);
        var m :| 0 <= m < |keys[1..]| && keys[1..][m] == t[k];
        assert keys[m + 1] == t[k];
      }
      InsertByVotesDescending(keys[0], t, votes);
      InsertByVotesNoDuplicates(keys[0], t, votes);
      InsertByVotesTies(keys[0], t, votes, p);
    }
  }

  /** Counting one more file is `c[x] += 1` on the counter of what came before. */
  lemma CounterOfAppend(s: seq<File>, x: File)
    ensures CounterOf(s + [x]) == CounterOf(s).Add(x)
  {
    assert (s + [x])[..|s|] == s;
    assert multiset(s)[x] == 0 <==> x !in Distinct(s);
  }

  /** `most_common()` lists every counted file exactly once. */
  lemma MostCommonKeys(p: seq<File>)
    ensures var r := CounterOf(p).MostCommon();
            && (forall f :: f in r <==> f in p)
            && NoDuplicates(r)
            && |r| <= |p|
  {
    var keys := Distinct(p);
    DistinctInEncounterOrder(p);
    SortByVotesPermutes(keys, multiset(p));
    SortByVotesProperties(keys, multiset(p), p);
    var r := CounterOf(p).MostCommon();
    forall f ensures f in r <==> f in keys {
      assert f in r <==> f in multiset(r);
    }
  }

  /**
   * The order of `combined_locs`: by vote count, highest first, and among
   * equal counts in the order the files were first met (model prefix, then
   * retrieval prefix).
   */
  lemma CombinedLocsSpec(modelLoc: seq<string>, retrieveLoc: seq<string>, topN: int)
    ensures var r := CombinedLocs(modelLoc, retrieveLoc, topN);
            var p := Ballot(modelLoc, retrieveLoc, topN);
            && ByVotesDescending(r, multiset(p))
            && TiesInEncounterOrder(r, multiset(p), p)
  {
    var p := Ballot(modelLoc, retrieveLoc, topN);
    var keys := Distinct(p);
    DistinctInEncounterOrder(p);
    SortByVotesProperties(keys, multiset(p), p);
  }

  /**
   * Only the first `topN` entries of each list count: whatever follows them
   * never changes the combined list.
   */
  lemma CombinedLocsIgnoresTails(modelLoc: seq<string>, retrieveLoc: seq<string>, topN: int,
                                 modelTail: seq<string>, retrieveTail: seq<string>)
    requires 0 <= topN <= |modelLoc| && topN <= |retrieveLoc|
    ensures CombinedLocs(modelLoc + modelTail, retrieveLoc + retrieveTail, topN)
         == CombinedLocs(modelLoc, retrieveLoc, topN)
  {
    assert Head(modelLoc + modelTail, topN) == Head(modelLoc, topN);
    assert Head(retrieveLoc + retrieveTail, topN) == Head(retrieveLoc, topN);
  }
}
