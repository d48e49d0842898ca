/** Reading the activity log (`getActivities` in src/services/dataService.ts):
    the current user's entries, newest first, cut to a limit. */
module Feed {
  import opened Entities
  import opened Seqs

  /** The limit `getActivities` uses when the caller gives none. */
  const DefaultLimit := 50

  /** No entry is newer than an entry before it. */
  predicate NewestFirst(s: seq<Activity>)
  {
    forall i, j :: 0 <= i < j < |s| ==> s[j].createdAt <= s[i].createdAt
  }

  /** The current user's log entries, in logged order. */
  function MyActivities(log: seq<Activity>): (r: seq<Activity>)
    ensures forall a :: a in r <==> a in log && a.userId == CurrentUserId
    ensures IsSubsequence(r, log)
    ensures |r| == |set i | 0 <= i < |log| && log[i].userId == CurrentUserId|
  {
    FilterMembership(log, (a: Activity) => a.userId == CurrentUserId);
    FilterIsSubsequence(log, (a: Activity) => a.userId == CurrentUserId);
    CountIsIndexSetSize(log, (a: Activity) => a.userId == CurrentUserId);
    assert IndexSet(log, (a: Activity) => a.userId == CurrentUserId)
        == set i | 0 <= i < |log| && log[i].userId == CurrentUserId;
    Filter(log, (a: Activity) => a.userId == CurrentUserId)
  }

  /** Places `a` before the first entry no newer than it, so that among equal
      times the earlier-listed entry stays in front. */
  function InsertByTime(a: Activity, s: seq<Activity>): (r: seq<Activity>)
    requires NewestFirst(s)
    ensures NewestFirst(r)
    ensures multiset(r) == multiset(s) + multiset{a}
    ensures |r| == |s| + 1
    ensures r[0] == a || (|s| > 0 && r[0] == s[0])
    decreases |s|
  {
    if |s| == 0 then [a]
    else if s[0].createdAt <= a.createdAt then [a] + s
    else
      assert s == [s[0]] + s[1..];
      var rest := InsertByTime(a, s[1..]);
      ConsNewestFirst(s[0], rest);
      [s[0]] + rest
  }

  /** An entry no older than the head of a newest-first list can go in front of it. */
  lemma ConsNewestFirst(x: Activity, t: seq<Activity>)
    requires NewestFirst(t)
    requires |t| > 0 ==> t[0].createdAt <= x.createdAt
    ensures NewestFirst([x] + t)
  {
    var r := [x] + t;
    forall i, j | 0 <= i < j < |r|
      ensures r[j].createdAt <= r[i].createdAt
    {
      if i > 0 {
        assert r[i] == t[i - 1] && r[j] == t[j - 1];
      } else {
        assert r[j] == t[j - 1];
      }
    }
  }

  /** `sort((a, b) => time(b) - time(a))`: a stable sort, newest first. */
  function SortNewestFirst(s: seq<Activity>): (r: seq<Activity>)
    ensures NewestFirst(r)
    ensures multiset(r) == multiset(s)
    decreases |s|
  {
    if |s| == 0 then []
    else
      assert s == [s[0]] + s[1..];
      InsertByTime(s[0], SortNewestFirst(s[1..]))
  }

  /** The end position `slice(0, limit)` stops at on a sequence of length `len`.
      A non-negative limit keeps at most `limit` entries, and fewer only when
      the sequence runs out; a negative limit drops the last `-limit` entries,
      or all of them when there are fewer. */
  function SliceEnd(len: nat, limit: int): (e: nat)
    ensures e <= len
    ensures 0 <= limit ==> e <= limit && (e < limit ==> e == len)
    ensures limit < 0 ==> len - e == (if -limit < len then -limit else len)
  {
    if limit < 0 then (if len + limit < 0 then 0 else len + limit)
    else if limit < len then limit
    else len
  }

  /** A newest-first prefix of a permutation of `mine` draws on `mine`, keeps
      its order, and leaves out nothing newer than what it keeps. */
  lemma NewestPrefix(mine: seq<Activity>, sorted: seq<Activity>, k: nat)
    requires NewestFirst(sorted) && multiset(sorted) == multiset(mine)
    requires k <= |sorted|
    ensures NewestFirst(sorted[..k])
    ensures multiset(sorted[..k]) <= multiset(mine)
    ensures forall a :: a in sorted[..k] ==> a in mine
    ensures forall i, b :: 0 <= i < k && b in multiset(mine) - multiset(sorted[..k]) ==> b.createdAt <= sorted[..k][i].createdAt
  {
    var r := sorted[..k];
    assert sorted == r + sorted[k..];
    assert multiset(sorted) == multiset(r) + multiset(sorted[k..]);
    forall a | a in r
      ensures a in mine
    {
      assert a in multiset(mine);
    }
    forall i, b | 0 <= i < k && b in multiset(mine) - multiset(r)
      ensures b.createdAt <= r[i].createdAt
    {
      assert b in multiset(sorted[k..]);
      var m :| 0 <= m < |sorted[k..]| && sorted[k..][m] == b;
      assert sorted[k + m] == b;
    }
  }

  /** `getActivities(limit)`: the current user's entries, newest first, the
      first `limit` of them (JavaScript `slice` semantics for the limit). */
  function GetActivities(log: seq<Activity>, limit: int): (r: seq<Activity>)
    ensures forall a :: a in r ==> a in log && a.userId == CurrentUserId
    ensures NewestFirst(r)
    ensures multiset(r) <= multiset(MyActivities(log))
    ensures |r| == SliceEnd(|MyActivities(log)|, limit)
    ensures 0 <= limit ==> |r| <= limit
    ensures forall i, b :: 0 <= i < |r| && b in multiset(MyActivities(log)) - multiset(r) ==> b.createdAt <= r[i].createdAt
  {
    var mine := MyActivities(log);
    var sorted := SortNewestFirst(mine);
    var k := SliceEnd(|sorted|, limit);
    NewestPrefix(mine, sorted, k);
    sorted[..k]
  }
}
