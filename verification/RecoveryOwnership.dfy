/**
 The authorization object a recovering process holds once its claim is installed: the write
 check, giving the claim up unused, disposing of the whole chain, releasing the lock
 (scripts/greater-realm-cutover-receipts.ts).
 */
module RecoveryOwnership {
  import opened Wrappers
  import opened ClaimChain

  datatype Outcome = Returned | Threw | Died

  class Authorization {
    var claims: map<nat, Claim> // the claim files of the directory
    var lock: Option<nat>       // the operator lock file, by its identity
    const openedLock: nat
    const owners: seq<Claim>
    const claimed: Claim
    var originalReleased: bool
    var disposed: bool

    ghost predicate Valid() {
      Linked(owners) && LinksTo(claimed, owners, |owners|)
    }

    ghost function Chain(): seq<Claim> {
      owners + [claimed]
    }

    /** The claim has just been linked into place after `owners`. */
    constructor (claims: map<nat, Claim>, lock: nat, owners: seq<Claim>, claimed: Claim)
      requires IsChain(claims, owners) && LinksTo(claimed, owners, |owners|)
      ensures Valid() && this.owners == owners && this.claimed == claimed
      ensures IsChain(this.claims, Chain()) && this.lock == Some(lock) && openedLock == lock
      ensures !originalReleased && !disposed && WriteAuthorized()
    {
      hide RecoveryOwners, Linked;
      ExtendedChain(claims, owners, claimed);
      this.claims, this.lock := claims[|owners| + 1 := claimed], Some(lock);
      openedLock, this.owners, this.claimed := lock, owners, claimed;
      originalReleased, disposed := false, false;
    }

    /** Not yet used up, and lock and claims are as this object left them. */
    ghost predicate WriteAuthorized()
      reads this
    {
      !originalReleased && !disposed && lock == Some(openedLock) && IsChain(claims, Chain())
    }

    /** Length and newest digest make a comparison of whole chains. */
    lemma SameLengthAndLastMeansSameChain()
      requires Valid()
      ensures var current := RecoveryOwners(claims);
              current.Some? && |current.value| == |owners| + 1 && Last(current.value) == claimed <==> IsChain(claims, Chain())
    {
      hide RecoveryOwners, Linked;
      var current := RecoveryOwners(claims);
      if current.Some? && |current.value| == |owners| + 1 && Last(current.value) == claimed {
        ClaimLinks(owners, claimed);
        LastFixesChain(current.value, Chain());
      }
      if IsChain(claims, Chain()) { RecoveryOwnersAre(claims, Chain()); }
    }

    lemma ClaimIsOnFile()
      requires Valid() && IsChain(claims, Chain())
      ensures claimed.ordinal in claims && claims[claimed.ordinal] == claimed
    {
      hide Linked;
      assert Chain()[|owners|] == claimed;
    }

    /** `assertRecoveryWriteAuthorized`: it returns exactly while nothing has changed. */
    method AssertRecoveryWriteAuthorized() returns (ok: bool)
      requires Valid()
      ensures ok <==> WriteAuthorized()
    {
      hide RecoveryOwners, Linked, IsChain;
      if originalReleased || disposed { return false; }
      if lock != Some(openedLock) { return false; }
      if IsChain(claims, Chain()) { ClaimIsOnFile(); }
      if claimed.ordinal !in claims || claims[claimed.ordinal] != claimed { return false; }
      SameLengthAndLastMeansSameChain();
      var current := RecoveryOwners(claims);
      ok := current.Some? && |current.value| == |owners| + 1 && Last(current.value) == claimed;
    }

    /** `abandonCurrentRecoveryOwnershipBeforeUse`: the chain is again the one that was read. */
    method Abandon() returns (outcome: Outcome)
      requires Valid()
      modifies this
      ensures Valid() && lock == old(lock) && originalReleased == old(originalReleased)
      ensures outcome == if old(WriteAuthorized()) then Returned else Threw
      ensures outcome.Returned? ==> IsChain(claims, owners) && disposed
      ensures outcome.Threw? ==> claims == old(claims) && disposed == old(disposed)
    {
      hide RecoveryOwners, Linked, IsChain;
      var authorized := AssertRecoveryWriteAuthorized();
      if !authorized { return Threw; }
      ShorterChain(claims, Chain());
      assert Chain()[..|Chain()| - 1] == owners;
      claims := claims - {claimed.ordinal};
      disposed := true;
      outcome := Returned;
    }

    /**
     `disposeRecoveryOwnership`, by a process that lives for `steps` unlinks: newest first,
     so wherever it is cut short the claims on file are the valid prefix it had reached.
     */
    method Dispose(steps: nat) returns (outcome: Outcome)
      requires Valid()
      modifies this
      ensures Valid() && lock == old(lock) && originalReleased == old(originalReleased)
      ensures outcome.Threw? <==> !old(WriteAuthorized())
      ensures outcome.Threw? ==> claims == old(claims) && disposed == old(disposed)
      ensures outcome.Died? <==> old(WriteAuthorized()) && steps <= |owners|
      ensures outcome.Died? ==> IsChain(claims, Chain()[..|owners| + 1 - steps])
      ensures outcome.Returned? ==> claims == map[] && disposed
    {
      hide RecoveryOwners, Linked, IsChain;
      var authorized := AssertRecoveryWriteAuthorized();
      if !authorized { return Threw; }
      var left := |owners| + 1;
      assert Chain()[..left] == Chain();
      while left > 0
        invariant 0 <= left <= |owners| + 1 && |owners| + 1 - left <= steps
        invariant IsChain(claims, Chain()[..left])
        invariant lock == old(lock) && originalReleased == old(originalReleased)
      {
        if |owners| + 1 - left == steps { return Died; }
        ShorterChain(claims, Chain()[..left]);
        assert Chain()[..left][..left - 1] == Chain()[..left - 1];
        claims := claims - {left};
        left := left - 1;
      }
      EmptyChain(claims, Chain()[..0]);
      disposed := true;
      outcome := Returned;
    }

    /** `releaseOriginalLock`: only after disposal, only once, and only the lock that was opened. */
    method ReleaseOriginalLock() returns (outcome: Outcome)
      modifies this
      ensures outcome.Returned? <==> !old(originalReleased) && old(disposed) && old(lock) == Some(openedLock)
      ensures outcome.Returned? ==> lock == None && originalReleased
      ensures outcome.Threw? ==> lock == old(lock) && originalReleased == old(originalReleased)
      ensures !outcome.Died? && claims == old(claims) && disposed == old(disposed)
    {
      if originalReleased || !disposed || lock != Some(openedLock) { return Threw; }
      lock, originalReleased := None, true;
      outcome := Returned;
    }
  }

  lemma EmptyChain(claims: map<nat, Claim>, owners: seq<Claim>)
    requires IsChain(claims, owners) && owners == []
    ensures claims == map[]
  {
    assert forall k :: k !in claims;
  }
}
