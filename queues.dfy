/**
 * The two kinds of list the scheduler keeps, as sequences of thread identities:
 * the timeout list, ordered by wakeup time, and the ready queues, one per priority
 * level. These are the list manipulations of the scheduler on their own.
 */
module Queues {
  import opened Wrappers
  import opened ThreadControl

  /** No thread occurs twice (an intrusive list node is in one place at a time). */
  predicate NoDup(s: seq<Tid>)
  {
    forall j, k :: 0 <= j < k < |s| ==> s[j] != s[k]
  }

  /** The wakeup time of a thread that has one; 0 otherwise (never compared then). */
  function Deadline(m: map<Tid, Tcb>, t: Tid): nat
  {
    if t in m && m[t].wakeupTime.Ticks? then m[t].wakeupTime.n else 0
  }

  /** Ascending order of wakeup times. */
  predicate SortedByDeadline(s: seq<Tid>, m: map<Tid, Tcb>)
  {
    forall j, k :: 0 <= j < k < |s| ==> Deadline(m, s[j]) <= Deadline(m, s[k])
  }

  /**
   * The walk of sched_register_timeout from position `i` on: the first position
   * at or after `i` whose wakeup time is later than `w`, or the end of the list.
   */
  function NotLaterFrom(s: seq<Tid>, m: map<Tid, Tcb>, w: nat, i: nat): (k: nat)
    requires i <= |s|
    ensures i <= k <= |s|
    ensures forall j :: i <= j < k ==> Deadline(m, s[j]) <= w
    ensures k < |s| ==> w < Deadline(m, s[k])
    decreases |s| - i
  {
    if i == |s| || w < Deadline(m, s[i]) then i else NotLaterFrom(s, m, w, i + 1)
  }

  /** The length of the longest prefix of `s` whose wakeup times are all at most `w`. */
  function NotLater(s: seq<Tid>, m: map<Tid, Tcb>, w: nat): nat
  {
    NotLaterFrom(s, m, w, 0)
  }

  /**
   * The insertion loop of sched_register_timeout from position `i` on: step past
   * an entry whose wakeup time is not later than that of `t`, and insert `t`
   * before the first later entry, or at the end.
   */
  function InsertFrom(s: seq<Tid>, m: map<Tid, Tcb>, t: Tid, i: nat): seq<Tid>
    requires i <= |s|
    decreases |s| - i
  {
    if i == |s| || Deadline(m, t) < Deadline(m, s[i]) then s[..i] + [t] + s[i..]
    else InsertFrom(s, m, t, i + 1)
  }

  /** Sorted insertion of `t` into the timeout list, walking from its head. */
  function InsertByDeadline(s: seq<Tid>, m: map<Tid, Tcb>, t: Tid): seq<Tid>
  {
    InsertFrom(s, m, t, 0)
  }

  /** The insertion puts `t` right after the entries whose wakeup time is not later than its own. */
  lemma {:induction false} InsertFromSplits(s: seq<Tid>, m: map<Tid, Tcb>, t: Tid, i: nat)
    requires i <= |s|
    ensures var k := NotLaterFrom(s, m, Deadline(m, t), i);
            InsertFrom(s, m, t, i) == s[..k] + [t] + s[k..]
    decreases |s| - i
  {
    if i < |s| && Deadline(m, s[i]) <= Deadline(m, t) {
      InsertFromSplits(s, m, t, i + 1);
    }
  }

  /** Every entry's wakeup time is `w` or earlier: all of them are due at time `w`. */
  predicate AllDue(s: seq<Tid>, m: map<Tid, Tcb>, w: nat)
  {
    forall j :: 0 <= j < |s| ==> Deadline(m, s[j]) <= w
  }

  /** Every entry's wakeup time is later than `w`: none of them is due at time `w`. */
  predicate NoneDue(s: seq<Tid>, m: map<Tid, Tcb>, w: nat)
  {
    forall j :: 0 <= j < |s| ==> w < Deadline(m, s[j])
  }

  /** In a sorted list, the entries before the insertion point are due at `w` and the rest are not. */
  lemma NotLaterSplits(s: seq<Tid>, m: map<Tid, Tcb>, w: nat)
    requires SortedByDeadline(s, m)
    ensures var k := NotLater(s, m, w);
            AllDue(s[..k], m, w) && NoneDue(s[k..], m, w)
  {
    var k := NotLater(s, m, w);
    forall j | 0 <= j < |s| - k ensures w < Deadline(m, s[k..][j]) {
      assert Deadline(m, s[k]) <= Deadline(m, s[k + j]);
    }
  }

  /** Two arenas agreeing on the wakeup times of a list's entries agree on its insertion point. */
  lemma {:induction false} NotLaterFromSame(s: seq<Tid>, m1: map<Tid, Tcb>, m2: map<Tid, Tcb>, w: nat, i: nat)
    requires i <= |s|
    requires forall j :: 0 <= j < |s| ==> Deadline(m1, s[j]) == Deadline(m2, s[j])
    ensures NotLaterFrom(s, m1, w, i) == NotLaterFrom(s, m2, w, i)
    decreases |s| - i
  {
    if i < |s| {
      NotLaterFromSame(s, m1, m2, w, i + 1);
    }
  }

  /** Splicing `t` between a prefix not later than it and a suffix later than it keeps the order. */
  lemma SpliceSorted(s: seq<Tid>, m: map<Tid, Tcb>, t: Tid, k: nat)
    requires SortedByDeadline(s, m) && k <= |s|
    requires AllDue(s[..k], m, Deadline(m, t)) && NoneDue(s[k..], m, Deadline(m, t))
    ensures SortedByDeadline(s[..k] + [t] + s[k..], m)
  {
    var r := s[..k] + [t] + s[k..];
    assert forall a :: 0 <= a < |r| && a != k ==> r[a] == if a < k then s[a] else s[a - 1];
    forall a, b | 0 <= a < b < |r| ensures Deadline(m, r[a]) <= Deadline(m, r[b]) {
      if a == k {
        assert s[k..][b - 1 - k] == s[b - 1];
      } else if b == k {
        assert s[..k][a] == s[a];
      } else {
        var a' := if a < k then a else a - 1;
        var b' := if b < k then b else b - 1;
        assert a' < b';
        assert Deadline(m, s[a']) <= Deadline(m, s[b']);
      }
    }
  }

  /** Inserting into a sorted list keeps it sorted and adds exactly `t`. */
  lemma InsertByDeadlineSorted(s: seq<Tid>, m: map<Tid, Tcb>, t: Tid)
    requires SortedByDeadline(s, m)
    ensures SortedByDeadline(InsertByDeadline(s, m, t), m)
    ensures multiset(InsertByDeadline(s, m, t)) == multiset(s) + multiset{t}
  {
    var k := NotLater(s, m, Deadline(m, t));
    InsertFromSplits(s, m, t, 0);
    NotLaterSplits(s, m, Deadline(m, t));
    SpliceSorted(s, m, t, k);
    SpliceAt(s, t, k);
  }

  /** The list with `t` spliced in at position `k`, element by element. */
  lemma SpliceAt(s: seq<Tid>, t: Tid, k: nat)
    requires k <= |s|
    ensures var r := s[..k] + [t] + s[k..];
            && |r| == |s| + 1
            && (forall a :: 0 <= a < |r| ==> r[a] == if a < k then s[a] else if a == k then t else s[a - 1])
            && multiset(r) == multiset(s) + multiset{t}
  {
    assert s == s[..k] + s[k..];
  }

  /** Splicing a new thread into a list without repetitions keeps it without repetitions. */
  lemma SpliceNoDup(s: seq<Tid>, t: Tid, k: nat)
    requires NoDup(s) && t !in s && k <= |s|
    ensures NoDup(s[..k] + [t] + s[k..])
    ensures forall u :: u in s[..k] + [t] + s[k..] <==> u in s || u == t
  {
    var r := s[..k] + [t] + s[k..];
    SpliceAt(s, t, k);
    forall u ensures u in r <==> u in s || u == t {
      assert u in r <==> u in multiset(r);
    }
    forall a, b | 0 <= a < b < |r| ensures r[a] != r[b] {
      if a != k && b != k {
        var a' := if a < k then a else a - 1;
        var b' := if b < k then b else b - 1;
        assert s[a'] != s[b'];
      } else if a == k {
        assert s[b - 1] in s;
      } else {
        assert s[a] in s;
      }
    }
  }

  /** A thread not yet in a list without repetitions does not repeat after insertion. */
  lemma InsertByDeadlineNoDup(s: seq<Tid>, m: map<Tid, Tcb>, t: Tid)
    requires NoDup(s) && t !in s
    ensures NoDup(InsertByDeadline(s, m, t))
    ensures forall u :: u in InsertByDeadline(s, m, t) <==> u in s || u == t
  {
    InsertFromSplits(s, m, t, 0);
    SpliceNoDup(s, t, NotLater(s, m, Deadline(m, t)));
  }

  /** Position of the first occurrence of `x`: where the list node of `x` sits. */
  function IndexOf(s: seq<Tid>, x: Tid): (k: nat)
    requires x in s
    ensures k < |s| && s[k] == x && x !in s[..k]
  {
    if s[0] == x then 0 else 1 + IndexOf(s[1..], x)
  }

  /** The list with the node of `x` unlinked. */
  function Removed(s: seq<Tid>, x: Tid): seq<Tid>
    requires x in s
  {
    var k := IndexOf(s, x);
    s[..k] + s[k + 1..]
  }

  /**
   * Unlinking a thread from a list without repetitions removes that thread and
   * nothing else, and keeps the order, hence the sortedness, of the rest.
   */
  lemma RemovedKeepsOrder(s: seq<Tid>, m: map<Tid, Tcb>, x: Tid)
    requires x in s && NoDup(s)
    ensures var r := Removed(s, x);
            && |r| == |s| - 1
            && NoDup(r)
            && (forall u :: u in r <==> u in s && u != x)
            && (SortedByDeadline(s, m) ==> SortedByDeadline(r, m))
            && (s[0] == x ==> r == s[1..])
  {
    var k := IndexOf(s, x);
    var r := s[..k] + s[k + 1..];
    assert forall a :: 0 <= a < |r| ==> r[a] == if a < k then s[a] else s[a + 1];
    forall a, b | 0 <= a < b < |r|
      ensures r[a] != r[b]
      ensures SortedByDeadline(s, m) ==> Deadline(m, r[a]) <= Deadline(m, r[b])
    {
      var a', b' := if a < k then a else a + 1, if b < k then b else b + 1;
      assert a' < b' && r[a] == s[a'] && r[b] == s[b'];
    }
    forall u ensures u in r <==> u in s && u != x {
      if u in s && u != x {
        var a :| 0 <= a < |s| && s[a] == u;
        assert a != k;
        if a < k { assert r[a] == u; } else { assert r[a - 1] == u; }
      }
    }
  }

  /** The front of the first non-empty level at or after `from`, if any. */
  function FirstNonEmptyFrom(levels: seq<seq<Tid>>, from: nat): (r: Option<nat>)
    requires from <= |levels|
    ensures r.None? <==> forall i :: from <= i < |levels| ==> levels[i] == []
    ensures r.Some? ==> from <= r.value < |levels| && levels[r.value] != []
                        && forall i :: from <= i < r.value ==> levels[i] == []
    decreases |levels| - from
  {
    if from == |levels| then None
    else if levels[from] != [] then Some(from)
    else FirstNonEmptyFrom(levels, from + 1)
  }

  /** The lowest-indexed non-empty level. */
  function FirstNonEmpty(levels: seq<seq<Tid>>): Option<nat>
  {
    FirstNonEmptyFrom(levels, 0)
  }

  /** What a level keeps of its own threads in a boost: all but the front, from level 1 on. */
  function Kept(levels: seq<seq<Tid>>, j: nat): seq<Tid>
    requires j < |levels|
  {
    if 1 <= j && levels[j] != [] then levels[j][1..] else levels[j]
  }

  /** What a level hands to the level above it in a boost: its front, from level 1 on. */
  function Carried(levels: seq<seq<Tid>>, j: nat): seq<Tid>
  {
    if 1 <= j < |levels| && levels[j] != [] then [levels[j][0]] else []
  }

  /** A level after the boost. */
  function BoostedLevel(levels: seq<seq<Tid>>, j: nat): seq<Tid>
    requires j < |levels|
  {
    Kept(levels, j) + Carried(levels, j + 1)
  }

  /**
   * The ready queues after one anti-starvation boost: the front of every level
   * from 1 on moves to the back of the level above it.
   */
  function Boosted(levels: seq<seq<Tid>>): seq<seq<Tid>>
  {
    seq(|levels|, j requires 0 <= j < |levels| => BoostedLevel(levels, j))
  }

  /**
   * The ready queues part way through a boost that handles the levels from the
   * top: every level below `i` is done, and level `i` has lost its front.
   */
  function BoostedUpTo(levels: seq<seq<Tid>>, i: nat): seq<seq<Tid>>
    requires i < |levels|
  {
    seq(|levels|, k requires 0 <= k < |levels| =>
      if k < i then BoostedLevel(levels, k) else if k == i then Kept(levels, k) else levels[k])
  }

  /** Before the first step nothing has moved; after the last one the boost is complete. */
  lemma BoostedUpToEnds(levels: seq<seq<Tid>>)
    requires |levels| > 0
    ensures BoostedUpTo(levels, 0) == levels
    ensures BoostedUpTo(levels, |levels| - 1) == Boosted(levels)
  {
    assert forall k :: 0 <= k < |levels| ==> BoostedUpTo(levels, 0)[k] == levels[k];
    var n := |levels| - 1;
    assert forall k :: 0 <= k < |levels| ==> BoostedUpTo(levels, n)[k] == Boosted(levels)[k];
  }

  /** One step of the boost moves the front of level `i + 1` to the back of level `i`. */
  lemma BoostedUpToStep(levels: seq<seq<Tid>>, i: nat)
    requires i + 1 < |levels|
    ensures var b := BoostedUpTo(levels, i);
            BoostedUpTo(levels, i + 1)
              == if levels[i + 1] == [] then b
                 else b[i + 1 := levels[i + 1][1..]][i := b[i] + [levels[i + 1][0]]]
  {
    var b := BoostedUpTo(levels, i);
    var b' := BoostedUpTo(levels, i + 1);
    var c := if levels[i + 1] == [] then b
             else b[i + 1 := levels[i + 1][1..]][i := b[i] + [levels[i + 1][0]]];
    forall k | 0 <= k < |levels| ensures b'[k] == c[k] {
      if k == i {
        assert b'[k] == Kept(levels, i) + Carried(levels, i + 1);
      }
    }
  }

  /** All queued threads, level 0 first. */
  function Flatten(levels: seq<seq<Tid>>): seq<Tid>
  {
    if levels == [] then [] else Flatten(levels[..|levels| - 1]) + levels[|levels| - 1]
  }

  /** The boost loses no thread and duplicates none: the same multiset stays queued. */
  lemma BoostedPermutes(levels: seq<seq<Tid>>)
    ensures |Boosted(levels)| == |levels|
    ensures multiset(Flatten(Boosted(levels))) == multiset(Flatten(levels))
  {
    BoostedPrefix(levels, |levels|);
    assert Boosted(levels)[..|levels|] == Boosted(levels);
    assert levels[..|levels|] == levels;
  }

  /** A level is what it hands up followed by what it keeps. */
  lemma LevelSplits(levels: seq<seq<Tid>>, i: nat)
    requires i < |levels|
    ensures levels[i] == Carried(levels, i) + Kept(levels, i)
    ensures Boosted(levels)[i] == Kept(levels, i) + Carried(levels, i + 1)
  {
    if 1 <= i && levels[i] != [] {
      assert levels[i] == [levels[i][0]] + levels[i][1..];
    }
  }

  lemma {:induction false} BoostedPrefix(levels: seq<seq<Tid>>, k: nat)
    requires k <= |levels|
    ensures multiset(Flatten(Boosted(levels)[..k]))
         == multiset(Flatten(levels[..k])) + multiset(Carried(levels, k))
  {
    if k > 0 {
      var b := Boosted(levels);
      var i := k - 1;
      BoostedPrefix(levels, i);
      assert b[..k][..i] == b[..i];
      assert levels[..k][..i] == levels[..i];
      LevelSplits(levels, i);
      calc {
        multiset(Flatten(b[..k]));
        multiset(Flatten(b[..i]) + b[i]);
        multiset(Flatten(b[..i])) + multiset(b[i]);
        multiset(Flatten(levels[..i])) + multiset(Carried(levels, i)) + multiset(Kept(levels, i))
          + multiset(Carried(levels, k));
        multiset(Flatten(levels[..i])) + multiset(levels[i]) + multiset(Carried(levels, k));
        multiset(Flatten(levels[..i]) + levels[i]) + multiset(Carried(levels, k));
        multiset(Flatten(levels[..k])) + multiset(Carried(levels, k));
      }
    }
  }

  /**
   * The front of a non-empty level from 1 on moves to the back of the level above,
   * and the rest of the level moves up to its front, in order.
   */
  lemma BoostedMoves(levels: seq<seq<Tid>>, j: nat)
    requires 1 <= j < |levels| && levels[j] != []
    ensures var b := Boosted(levels);
            && |b| == |levels|
            && |levels[j]| - 1 <= |b[j]| && b[j][..|levels[j]| - 1] == levels[j][1..]
            && b[j - 1] != [] && b[j - 1][|b[j - 1]| - 1] == levels[j][0]
  {
    var b := Boosted(levels);
    assert b[j] == levels[j][1..] + Carried(levels, j + 1);
    assert b[j - 1] == Kept(levels, j - 1) + [levels[j][0]];
  }

  /** The boost keeps the order of each level: a level's own threads stay in front, in order. */
  lemma BoostedKeepsOrder(levels: seq<seq<Tid>>, j: nat)
    requires j < |levels|
    ensures Boosted(levels)[j][..|Kept(levels, j)|] == Kept(levels, j)
    ensures |Boosted(levels)[j]| <= |Kept(levels, j)| + 1
    ensures j == 0 ==> Boosted(levels)[0][..|levels[0]|] == levels[0]
  {
  }
}
