/** The collection operations every entity kind shares in the data service:
    reading the current user's records, appending a new record, updating the
    first record with a given id and owner, and deleting every such record. */
module Records {
  import opened Wrappers
  import opened Entities
  import opened Seqs

  /** The record belongs to the current user. */
  predicate IsMine<B>(r: Rec<B>)
  {
    r.userId == CurrentUserId
  }

  /** The record is the one an update or delete of `id` addresses. */
  predicate Targets<B>(r: Rec<B>, id: Id)
  {
    r.id == id && r.userId == CurrentUserId
  }

  /** No record of `s` is addressed by `id`. */
  predicate NoTarget<B>(s: seq<Rec<B>>, id: Id)
  {
    forall i :: 0 <= i < |s| ==> !Targets(s[i], id)
  }

  /** `getLeads`, `getContacts`, ...: the current user's records, in stored
      order, each kept once per position it occupies. */
  function Owned<B(!new)>(s: seq<Rec<B>>): (r: seq<Rec<B>>)
    ensures forall x :: x in r <==> x in s && x.userId == CurrentUserId
    ensures IsSubsequence(r, s)
    ensures |r| == |set i | 0 <= i < |s| && s[i].userId == CurrentUserId|
  {
    FilterMembership(s, (x: Rec<B>) => x.userId == CurrentUserId);
    FilterIsSubsequence(s, (x: Rec<B>) => x.userId == CurrentUserId);
    CountIsIndexSetSize(s, (x: Rec<B>) => x.userId == CurrentUserId);
    assert IndexSet(s, (x: Rec<B>) => x.userId == CurrentUserId)
        == set i | 0 <= i < |s| && s[i].userId == CurrentUserId;
    Filter(s, (x: Rec<B>) => x.userId == CurrentUserId)
  }

  /** The current user's records of `s + [x]` are those of `s`, followed by
      `x` when it is the current user's. */
  lemma OwnedSnoc<B(!new)>(s: seq<Rec<B>>, x: Rec<B>)
    ensures Owned(s + [x]) == Owned(s) + (if IsMine(x) then [x] else [])
  {
    FilterSnoc(s, x, (x: Rec<B>) => x.userId == CurrentUserId);
  }

  /** A new record of the current user, built from the creation's fresh values. */
  function NewRec<B>(body: B, f: Fresh): (r: Rec<B>)
    ensures r.id == f.id && IsMine(r) && r.body == body
  {
    Rec(f.id, CurrentUserId, body, f.createdAt, f.updatedAt)
  }

  /** `findIndex(r => r.id === id && r.userId === currentUser)`: the first
      addressed position, or -1 when there is none. */
  function FindTarget<B>(s: seq<Rec<B>>, id: Id): (r: int)
    ensures -1 <= r < |s|
    ensures r == -1 <==> NoTarget(s, id)
    ensures r >= 0 ==> Targets(s[r], id)
    ensures r >= 0 ==> forall j :: 0 <= j < r ==> !Targets(s[j], id)
    decreases |s|
  {
    if |s| == 0 then -1
    else if Targets(s[0], id) then 0
    else
      var k := FindTarget(s[1..], id);
      if k == -1 then -1 else k + 1
  }

  /** `{...prev, ...updates, updatedAt: now}`: the update's fields win, the
      update time is refreshed, and `apply` merges the entity-specific fields. */
  function Merge<B, P>(prev: Rec<B>, p: Patch<P>, now: Timestamp, apply: (B, P) -> B): (r: Rec<B>)
    ensures r.updatedAt == now
    ensures r.body == apply(prev.body, p.body)
    ensures p.id.None? ==> r.id == prev.id
    ensures p.userId.None? ==> r.userId == prev.userId
    ensures p.createdAt.None? ==> r.createdAt == prev.createdAt
    ensures p.id.Some? ==> r.id == p.id.value
    ensures p.userId.Some? ==> r.userId == p.userId.value
    ensures p.createdAt.Some? ==> r.createdAt == p.createdAt.value
  {
    Rec(Pick(p.id, prev.id), Pick(p.userId, prev.userId), apply(prev.body, p.body),
        Pick(p.createdAt, prev.createdAt), now)
  }

  /** What an update of `id` leaves behind: when nothing is addressed, no
      result and the collection as it was; otherwise only the first addressed
      position changes, to the returned record, which carries the new update time. */
  ghost predicate UpdatedFirstTarget<B>(s: seq<Rec<B>>, id: Id, now: Timestamp, t: seq<Rec<B>>, res: Option<Rec<B>>)
  {
    if NoTarget(s, id) then res.None? && t == s
    else
      var i := FindTarget(s, id);
      && res.Some?
      && |t| == |s|
      && t[i] == res.value
      && res.value.updatedAt == now
      && (forall j :: 0 <= j < |s| && j != i ==> t[j] == s[j])
  }

  /** The shared body of `updateLead`, `updateContact`, `updateDeal` and `updateTask`. */
  function UpdateTarget<B, P>(s: seq<Rec<B>>, id: Id, p: Patch<P>, now: Timestamp, apply: (B, P) -> B)
    : (r: (seq<Rec<B>>, Option<Rec<B>>))
    ensures UpdatedFirstTarget(s, id, now, r.0, r.1)
    ensures r.1.Some? ==> r.1.value == Merge(s[FindTarget(s, id)], p, now, apply)
  {
    var i := FindTarget(s, id);
    if i == -1 then (s, None)
    else
      var updated := Merge(s[i], p, now, apply);
      (s[i := updated], Some(updated))
  }

  /** What a delete of `id` leaves behind: exactly the records it does not
      address, in their order; it reports a removal exactly when one happened,
      and leaves the collection as it was otherwise. */
  ghost predicate RemovedTargets<B(!new)>(s: seq<Rec<B>>, id: Id, t: seq<Rec<B>>, removed: bool)
  {
    && (removed <==> !NoTarget(s, id))
    && (!removed ==> t == s)
    && (forall x :: x in t <==> x in s && !Targets(x, id))
    && IsSubsequence(t, s)
    && |t| == |s| - Count(s, (x: Rec<B>) => Targets(x, id))
  }

  /** `deleteLead`: filter out the addressed records; report whether any went. */
  function DeleteTargets<B(!new)>(s: seq<Rec<B>>, id: Id): (r: (seq<Rec<B>>, bool))
    ensures RemovedTargets(s, id, r.0, r.1)
  {
    var keep := (x: Rec<B>) => !Targets(x, id);
    var kept := Filter(s, keep);
    FilterMembership(s, keep);
    FilterIsSubsequence(s, keep);
    FilterKeepsAllIff(s, keep);
    CountComplement(s, (x: Rec<B>) => Targets(x, id), keep);
    if |kept| == |s| then (s, false) else (kept, true)
  }
}
