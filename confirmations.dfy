/** The two-factor confirmation table: records that a user completed the
    two-factor check, keyed by a record id and looked up by user id. The login
    action deletes a user's existing confirmation and then creates a fresh one;
    `Rotated` is that delete-then-create step as a value. */
module Confirmations {
  import opened Records

  datatype TwoFactorConfirmation = TwoFactorConfirmation(id: nat, userId: string)

  /** The primary key of the table: ids are pairwise distinct. */
  predicate UniqueIds(cs: seq<TwoFactorConfirmation>)
  {
    cs == [] || ((forall c :: c in cs[1..] ==> c.id != cs[0].id) && UniqueIds(cs[1..]))
  }

  /** Every id in the table is below `bound`, so `bound` is free to allocate. */
  predicate IdsBelow(cs: seq<TwoFactorConfirmation>, bound: nat)
  {
    forall c :: c in cs ==> c.id < bound
  }

  /** How many confirmations belong to `userId`. */
  function Count(cs: seq<TwoFactorConfirmation>, userId: string): (n: nat)
  {
    if cs == [] then 0 else (if cs[0].userId == userId then 1 else 0) + Count(cs[1..], userId)
  }

  /** No user holds more than one confirmation. */
  ghost predicate AtMostOneEach(cs: seq<TwoFactorConfirmation>)
  {
    forall u :: Count(cs, u) <= 1
  }

  /** The lookup by user id (`getTwoFactorConfirmationByUserId`): the first
      confirmation of `userId`, or `None` when the user has none. */
  function FindByUserId(cs: seq<TwoFactorConfirmation>, userId: string): (r: Option<TwoFactorConfirmation>)
    ensures r.Some? ==> r.value in cs && r.value.userId == userId
    ensures r.None? <==> Count(cs, userId) == 0
    ensures r.None? ==> forall c :: c in cs ==> c.userId != userId
  {
    if cs == [] then None
    else if cs[0].userId == userId then Some(cs[0])
    else FindByUserId(cs[1..], userId)
  }

  /** Deleting the record with primary key `id`; every other record stays, in order. */
  function DeleteById(cs: seq<TwoFactorConfirmation>, id: nat): (r: seq<TwoFactorConfirmation>)
    ensures forall c :: c in r <==> c in cs && c.id != id
  {
    if cs == [] then []
    else if cs[0].id == id then DeleteById(cs[1..], id)
    else [cs[0]] + DeleteById(cs[1..], id)
  }

  /** Delete the user's existing confirmation, if any, then create a new one
      with the fresh id `newId`. */
  function Rotated(cs: seq<TwoFactorConfirmation>, userId: string, newId: nat): (r: seq<TwoFactorConfirmation>)
  {
    var kept := match FindByUserId(cs, userId)
      case Some(existing) => DeleteById(cs, existing.id)
      case None => cs;
    kept + [TwoFactorConfirmation(newId, userId)]
  }

  lemma {:induction false} CountAppend(cs: seq<TwoFactorConfirmation>, c: TwoFactorConfirmation, u: string)
    ensures Count(cs + [c], u) == Count(cs, u) + (if c.userId == u then 1 else 0)
  {
    if cs != [] {
      assert (cs + [c])[1..] == cs[1..] + [c];
      CountAppend(cs[1..], c, u);
    }
  }

  /** With unique ids, deleting `c` by its id removes exactly one record: `c`. */
  lemma {:induction false} CountDeleteById(cs: seq<TwoFactorConfirmation>, c: TwoFactorConfirmation, u: string)
    requires UniqueIds(cs) && c in cs
    ensures Count(DeleteById(cs, c.id), u) == Count(cs, u) - (if c.userId == u then 1 else 0)
  {
    if cs[0].id == c.id {
      assert cs[0] == c;
      DeleteAbsent(cs[1..], c.id);
    } else {
      assert c in cs[1..];
      CountDeleteById(cs[1..], c, u);
      assert DeleteById(cs, c.id)[1..] == DeleteById(cs[1..], c.id);
    }
  }

  lemma {:induction false} DeleteAbsent(cs: seq<TwoFactorConfirmation>, id: nat)
    requires forall c :: c in cs ==> c.id != id
    ensures DeleteById(cs, id) == cs
  {
    if cs != [] {
      DeleteAbsent(cs[1..], id);
    }
  }

  lemma {:induction false} DeleteKeepsUnique(cs: seq<TwoFactorConfirmation>, id: nat)
    requires UniqueIds(cs)
    ensures UniqueIds(DeleteById(cs, id))
  {
    if cs != [] {
      DeleteKeepsUnique(cs[1..], id);
      if cs[0].id != id {
        assert DeleteById(cs, id)[1..] == DeleteById(cs[1..], id);
      }
    }
  }

  lemma {:induction false} AppendFreshKeepsUnique(cs: seq<TwoFactorConfirmation>, c: TwoFactorConfirmation)
    requires UniqueIds(cs) && IdsBelow(cs, c.id)
    ensures UniqueIds(cs + [c])
  {
    if cs != [] {
      assert (cs + [c])[1..] == cs[1..] + [c];
      AppendFreshKeepsUnique(cs[1..], c);
    }
  }

  /** After the rotation the user holds exactly as many confirmations as before,
      but at least one; every other user's count is unchanged. */
  lemma RotatedCount(cs: seq<TwoFactorConfirmation>, userId: string, newId: nat, u: string)
    requires UniqueIds(cs)
    ensures Count(Rotated(cs, userId, newId), u) ==
            if u != userId then Count(cs, u)
            else if Count(cs, u) == 0 then 1 else Count(cs, u)
  {
    var found := FindByUserId(cs, userId);
    var kept := if found.Some? then DeleteById(cs, found.value.id) else cs;
    if found.Some? {
      CountDeleteById(cs, found.value, u);
    }
    CountAppend(kept, TwoFactorConfirmation(newId, userId), u);
  }

  /** If the user held at most one confirmation, afterwards they hold exactly one. */
  lemma RotatedLeavesOne(cs: seq<TwoFactorConfirmation>, userId: string, newId: nat)
    requires UniqueIds(cs) && Count(cs, userId) <= 1
    ensures Count(Rotated(cs, userId, newId), userId) == 1
  {
    RotatedCount(cs, userId, newId, userId);
  }

  /** If the user held at most one confirmation, the only confirmation of the
      user afterwards is the new record, so the old one is gone; no
      confirmation of another user is lost. */
  lemma RotatedReplaces(cs: seq<TwoFactorConfirmation>, userId: string, newId: nat)
    requires UniqueIds(cs) && Count(cs, userId) <= 1
    ensures TwoFactorConfirmation(newId, userId) in Rotated(cs, userId, newId)
    ensures forall c :: c in Rotated(cs, userId, newId) && c.userId == userId ==> c == TwoFactorConfirmation(newId, userId)
    ensures forall c :: c in cs && c.userId != userId ==> c in Rotated(cs, userId, newId)
  {
    var found := FindByUserId(cs, userId);
    var kept := if found.Some? then DeleteById(cs, found.value.id) else cs;
    var created := TwoFactorConfirmation(newId, userId);
    assert Rotated(cs, userId, newId) == kept + [created];
    if found.Some? {
      CountDeleteById(cs, found.value, userId);
      forall c | c in cs && c.userId != userId ensures c in kept {
        if c.id == found.value.id {
          SameIdSameRecord(cs, c, found.value);
          assert false;
        }
      }
    }
    assert FindByUserId(kept, userId).None?;
  }

  /** Under the primary key, a record is determined by its id. */
  lemma {:induction false} SameIdSameRecord(cs: seq<TwoFactorConfirmation>, a: TwoFactorConfirmation, b: TwoFactorConfirmation)
    requires UniqueIds(cs) && a in cs && b in cs && a.id == b.id
    ensures a == b
  {
    if a != cs[0] && b != cs[0] {
      assert a in cs[1..] && b in cs[1..];
      SameIdSameRecord(cs[1..], a, b);
    }
  }

  /** The rotation keeps the table's invariants: unique ids, all ids below the
      next free id, and at most one confirmation per user. */
  lemma RotatedKeepsInvariant(cs: seq<TwoFactorConfirmation>, userId: string, newId: nat)
    requires UniqueIds(cs) && IdsBelow(cs, newId)
    ensures UniqueIds(Rotated(cs, userId, newId)) && IdsBelow(Rotated(cs, userId, newId), newId + 1)
    ensures AtMostOneEach(cs) ==> AtMostOneEach(Rotated(cs, userId, newId))
  {
    var found := FindByUserId(cs, userId);
    var kept := if found.Some? then DeleteById(cs, found.value.id) else cs;
    if found.Some? {
      DeleteKeepsUnique(cs, found.value.id);
    }
    AppendFreshKeepsUnique(kept, TwoFactorConfirmation(newId, userId));
    if AtMostOneEach(cs) {
      forall u ensures Count(Rotated(cs, userId, newId), u) <= 1 {
        RotatedCount(cs, userId, newId, u);
      }
    }
  }
}
