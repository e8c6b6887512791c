/**
 Recovery ownership: claim files created by exclusive link, each naming the claim before it,
 by processes that first prove the previous claimant dead. Processes interleave one
 directory operation at a time (scripts/greater-realm-cutover-receipts.ts).
 */
module ClaimChain {
  import opened Wrappers

  /** A claim stands for its own digest, so `previous` is the claim whose digest it records. */
  datatype Claim = Claim(claimId: nat, ordinal: nat, owner: nat, previous: Option<Claim>)

  /** What a process has done, and what it remembers of the chain it read. */
  datatype Local =
    | Idle
    | Read(owners: seq<Claim>)
    | Probed(owners: seq<Claim>)
    | Claimed(owners: seq<Claim>, claim: Claim)
    | Abandoning(claim: Claim)
    | Disposing(chain: seq<Claim>, left: nat) // the first `left` claims of the chain are still to be unlinked
    | Released

  datatype State = State(claims: map<nat, Claim>, alive: set<nat>, locals: map<nat, Local>)

  datatype Label =
    | ReadOwners(process: nat)
    | Probe(process: nat)
    | Install(process: nat, claimId: nat)
    | BeginAbandon(process: nat)
    | Abandon(process: nat)
    | BeginDispose(process: nat)
    | Unlink(process: nat)
    | Die(process: nat)

  // ------------------------------------------------------------------------- the chain

  predicate LinksTo(claim: Claim, owners: seq<Claim>, i: nat)
    requires i <= |owners|
  {
    claim.ordinal == i + 1 && claim.previous == if i == 0 then None else Some(owners[i - 1])
  }

  predicate Linked(owners: seq<Claim>) {
    forall i | 0 <= i < |owners| :: LinksTo(owners[i], owners, i)
  }

  lemma LinkAt(owners: seq<Claim>, i: nat)
    requires Linked(owners) && i < |owners|
    ensures owners[i].ordinal == i + 1 && owners[i].previous == if i == 0 then None else Some(owners[i - 1])
  {
    assert LinksTo(owners[i], owners, i);
  }

  /** Counted from the newest claim, two chains that end alike agree. */
  lemma {:induction false} ChainsAgreeAt(xs: seq<Claim>, ys: seq<Claim>, i: nat)
    requires Linked(xs) && Linked(ys) && |xs| == |ys| && i < |xs| && Last(xs) == Last(ys)
    ensures xs[i] == ys[i]
    decreases |xs| - i
  {
    hide Linked;
    if i + 1 < |xs| {
      LinkAt(xs, i + 1);
      LinkAt(ys, i + 1);
      ChainsAgreeAt(xs, ys, i + 1);
    }
  }

  /** The newest claim fixes every claim before it. */
  lemma LastFixesChain(xs: seq<Claim>, ys: seq<Claim>)
    requires Linked(xs) && Linked(ys) && |xs| == |ys| && (xs != [] ==> Last(xs) == Last(ys))
    ensures xs == ys
  {
    hide Linked;
    forall i | 0 <= i < |xs| ensures xs[i] == ys[i] {
      ChainsAgreeAt(xs, ys, i);
    }
  }

  lemma PrefixIsLinked(owners: seq<Claim>, n: nat)
    requires Linked(owners) && n <= |owners|
    ensures Linked(owners[..n])
  {
    forall i | 0 <= i < n ensures LinksTo(owners[..n][i], owners[..n], i) {
      assert LinksTo(owners[i], owners, i);
    }
  }

  /** `recoveryOwners`: the claims by ordinal, if they are 1..n and each names the one before. */
  ghost predicate IsChain(claims: map<nat, Claim>, owners: seq<Claim>) {
    && (forall k :: k in claims <==> 1 <= k <= |owners|)
    && Linked(owners)
    && forall i | 0 <= i < |owners| :: claims[i + 1] == owners[i]
  }

  function Listing(claims: map<nat, Claim>): seq<Claim> {
    var n := |claims|;
    if forall k | 1 <= k <= n :: k in claims then seq(n, i requires 0 <= i < n => claims[i + 1]) else []
  }

  function RecoveryOwners(claims: map<nat, Claim>): (owners: Option<seq<Claim>>)
    ensures owners.Some? ==> IsChain(claims, owners.value)
    ensures owners.None? ==> forall chain :: !IsChain(claims, chain)
  {
    var listing := Listing(claims);
    if |listing| == |claims| && Linked(listing) then
      ListingIsChain(claims);
      Some(listing)
    else
      NoChain(claims);
      None
  }

  lemma ListingIsChain(claims: map<nat, Claim>)
    requires |Listing(claims)| == |claims| && Linked(Listing(claims))
    ensures IsChain(claims, Listing(claims))
  {
    hide Linked;
    if |claims| == 0 {
      assert claims == map[];
    } else {
      CountedKeys(claims, |claims|);
    }
  }

  /** The ordinals of a chain of `n` claims. */
  function Ordinals(n: nat): (ordinals: set<nat>)
    ensures forall k :: k in ordinals <==> 1 <= k <= n
    ensures |ordinals| == n
  {
    if n == 0 then {} else Ordinals(n - 1) + {n}
  }

  /** A directory of `n` claims that holds 1..n holds nothing else. */
  lemma CountedKeys(claims: map<nat, Claim>, n: nat)
    requires |claims| == n && forall k | 1 <= k <= n :: k in claims
    ensures forall k :: k in claims <==> 1 <= k <= n
  {
    var ordinals := Ordinals(n);
    assert ordinals <= claims.Keys;
    if k :| k in claims && k !in ordinals {
      assert ordinals + {k} <= claims.Keys;
      SubsetCount(ordinals + {k}, claims.Keys);
    }
  }

  lemma {:induction false} SubsetCount(a: set<nat>, b: set<nat>)
    requires a <= b
    ensures |a| <= |b|
  {
    if a != {} {
      var x :| x in a;
      SubsetCount(a - {x}, b - {x});
    }
  }

  lemma ChainCounts(claims: map<nat, Claim>, chain: seq<Claim>)
    requires IsChain(claims, chain)
    ensures |claims| == |chain|
  {
    hide Linked;
    assert claims.Keys == Ordinals(|chain|);
  }

  lemma ChainIsListing(claims: map<nat, Claim>, chain: seq<Claim>)
    requires IsChain(claims, chain)
    ensures Listing(claims) == chain && |claims| == |chain|
  {
    hide Linked;
    ChainCounts(claims, chain);
    var listing := Listing(claims);
    assert |listing| == |chain|;
    forall i | 0 <= i < |chain| ensures listing[i] == chain[i] {}
  }

  lemma NoChain(claims: map<nat, Claim>)
    requires var listing := Listing(claims);
             !(|listing| == |claims| && Linked(listing))
    ensures forall chain :: !IsChain(claims, chain)
  {
    forall chain | IsChain(claims, chain) ensures false {
      ChainIsListing(claims, chain);
    }
  }

  // -------------------------------------------------------------------------- the steps

  function LocalOf(s: State, p: nat): Local {
    if p in s.locals then s.locals[p] else Idle
  }

  function Last(owners: seq<Claim>): Claim
    requires owners != []
  {
    owners[|owners| - 1]
  }

  /** `assertRecoveryWriteAuthorized`: this process's claim is the latest of a chain one longer than it read. */
  predicate Authorized(s: State, p: nat) {
    var local := LocalOf(s, p);
    && p in s.alive && local.Claimed?
    && var owners := RecoveryOwners(s.claims);
       owners.Some? && |owners.value| == |local.owners| + 1 && Last(owners.value) == local.claim
  }

  predicate Enabled(s: State, l: Label) {
    && l.process in s.alive
    && var local := LocalOf(s, l.process);
       match l
       case ReadOwners(_) => local.Idle? && RecoveryOwners(s.claims).Some?
       case Probe(_) => local.Read? && (local.owners != [] ==> Last(local.owners).owner !in s.alive)
       case Install(_, _) => local.Probed?
       case BeginAbandon(p) => Authorized(s, p)
       case Abandon(_) => local.Abandoning?
       case BeginDispose(p) => Authorized(s, p)
       case Unlink(_) => local.Disposing?
       case Die(_) => true
  }

  /** `unlinkExactRecoveryOwner`: removes this very claim, or nothing. */
  function Without(claims: map<nat, Claim>, claim: Claim): map<nat, Claim> {
    if claim.ordinal in claims && claims[claim.ordinal] == claim then claims - {claim.ordinal} else claims
  }

  function Step(s: State, l: Label): State
    requires Enabled(s, l)
  {
    var p, local := l.process, LocalOf(s, l.process);
    match l
    case ReadOwners(_) => s.(locals := s.locals[p := Read(RecoveryOwners(s.claims).value)])
    case Probe(_) => s.(locals := s.locals[p := Probed(local.owners)])
    case Install(_, claimId) =>
      var claim := Claim(claimId, |local.owners| + 1, p, if local.owners == [] then None else Some(Last(local.owners)));
      if claim.ordinal in s.claims then s.(locals := s.locals[p := Idle])
      else s.(claims := s.claims[claim.ordinal := claim], locals := s.locals[p := Claimed(local.owners, claim)])
    case BeginAbandon(_) => s.(locals := s.locals[p := Abandoning(local.claim)])
    case Abandon(_) => s.(claims := Without(s.claims, local.claim), locals := s.locals[p := Idle])
    case BeginDispose(_) =>
      s.(locals := s.locals[p := Disposing(local.owners + [local.claim], |local.owners| + 1)])
    case Unlink(_) =>
      if local.left == 0 || local.left > |local.chain| then s.(locals := s.locals[p := Released])
      else s.(claims := Without(s.claims, local.chain[local.left - 1]),
              locals := s.locals[p := Disposing(local.chain, local.left - 1)])
    case Die(_) => s.(alive := s.alive - {p})
  }

  // ---------------------------------------------------------------------- the invariant

  /** A claim names a predecessor only if that claimant was dead, and the dead stay dead. */
  predicate PreviousDead(s: State, claim: Claim) {
    claim.previous.Some? ==> claim.previous.value.owner !in s.alive
  }

  predicate LocalHolds(s: State, p: nat, local: Local) {
    match local
    case Idle => true
    case Read(owners) => Linked(owners)
    case Probed(owners) => Linked(owners) && (owners != [] ==> Last(owners).owner !in s.alive)
    case Claimed(owners, claim) => claim.owner == p && Linked(owners) && LinksTo(claim, owners, |owners|)
    case Abandoning(claim) => claim.owner == p
    case Disposing(chain, left) =>
      && left <= |chain| && chain != [] && Last(chain).owner == p
      && forall i | 0 <= i < |chain| :: chain[i].ordinal == i + 1 && (i + 1 < |chain| ==> chain[i].owner !in s.alive)
    case Released => true
  }

  predicate Inv(s: State) {
    && (forall k | k in s.claims :: s.claims[k].ordinal == k && PreviousDead(s, s.claims[k]))
    && (forall p | p in s.locals :: LocalHolds(s, p, s.locals[p]))
  }

  /** A step writes the local state of its own process alone, and that state holds. */
  lemma OwnLocalHolds(s: State, l: Label)
    requires Inv(s) && Enabled(s, l) && !l.Die?
    ensures var t := Step(s, l); t.alive == s.alive && LocalHolds(t, l.process, LocalOf(t, l.process))
    ensures forall q | q != l.process :: LocalOf(Step(s, l), q) == LocalOf(s, q)
  {
    hide Listing, RecoveryOwners, Linked;
    assert LocalHolds(s, l.process, LocalOf(s, l.process));
    match l
    case BeginDispose(p) => DisposedChain(s, p);
    case ReadOwners(_) => ReadIsLinked(s.claims);
    case _ =>
  }

  lemma ReadIsLinked(claims: map<nat, Claim>)
    ensures RecoveryOwners(claims).Some? ==> Linked(RecoveryOwners(claims).value)
  {
    hide RecoveryOwners;
  }

  lemma LocalsKeep(s: State, l: Label)
    requires Inv(s) && Enabled(s, l)
    ensures forall q | q in Step(s, l).locals :: LocalHolds(Step(s, l), q, Step(s, l).locals[q])
  {
    hide Linked, RecoveryOwners, Authorized;
    var t := Step(s, l);
    if !l.Die? {
      OwnLocalHolds(s, l);
    }
    forall q | q in t.locals ensures LocalHolds(t, q, t.locals[q]) {
      if q != l.process || l.Die? {
        assert LocalOf(t, q) == LocalOf(s, q);
        assert LocalHolds(s, q, LocalOf(s, q));
      } else {
        assert LocalHolds(t, q, LocalOf(t, q));
      }
    }
  }

  lemma ClaimsKeep(s: State, l: Label)
    requires Inv(s) && Enabled(s, l)
    ensures forall k | k in Step(s, l).claims :: Step(s, l).claims[k].ordinal == k && PreviousDead(Step(s, l), Step(s, l).claims[k])
  {
    hide Linked, RecoveryOwners, Authorized;
    assert LocalHolds(s, l.process, LocalOf(s, l.process));
    forall k | k in s.claims ensures PreviousDead(s, s.claims[k]) {}
  }

  lemma StepKeeps(s: State, l: Label)
    requires Inv(s) && Enabled(s, l)
    ensures Inv(Step(s, l))
  {
    hide Enabled, Step, LocalHolds, PreviousDead;
    LocalsKeep(s, l);
    ClaimsKeep(s, l);
  }

  /** What an authorized process is about to dispose of: the whole chain, every earlier claimant dead. */
  lemma DisposedChain(s: State, p: nat)
    requires Inv(s) && Authorized(s, p)
    ensures var chain := LocalOf(s, p).owners + [LocalOf(s, p).claim];
            && IsChain(s.claims, chain)
            && forall i | 0 <= i < |chain| :: chain[i].ordinal == i + 1 && (i + 1 < |chain| ==> chain[i].owner !in s.alive)
  {
    hide RecoveryOwners;
    var local := LocalOf(s, p);
    var owners := RecoveryOwners(s.claims).value;
    var chain := local.owners + [local.claim];
    assert LocalHolds(s, p, local);
    ClaimLinks(local.owners, local.claim);
    LastFixesChain(owners, chain);
    forall i | 0 <= i < |owners| ensures owners[i].ordinal == i + 1 && (i + 1 < |owners| ==> owners[i].owner !in s.alive) {
      assert LinksTo(owners[i], owners, i);
      if i + 1 < |owners| { EarlierAreDead(s, owners, i); }
    }
  }

  lemma ClaimLinks(owners: seq<Claim>, claim: Claim)
    requires Linked(owners) && LinksTo(claim, owners, |owners|)
    ensures Linked(owners + [claim])
  {
    var chain := owners + [claim];
    forall i | 0 <= i < |chain| ensures LinksTo(chain[i], chain, i) {
      assert i < |owners| ==> LinksTo(owners[i], owners, i);
    }
  }

  ghost predicate IsRun(states: seq<State>, labels: seq<Label>) {
    && |states| == |labels| + 1
    && states[0].claims == map[] && states[0].locals == map[]
    && forall i | 0 <= i < |labels| :: Enabled(states[i], labels[i]) && states[i + 1] == Step(states[i], labels[i])
  }

  lemma {:induction false} EveryRunKeeps(states: seq<State>, labels: seq<Label>, i: nat)
    requires IsRun(states, labels) && i < |states|
    ensures Inv(states[i])
  {
    hide Inv, Enabled, Step;
    if i == 0 {
      EmptyHolds(states[0]);
    } else {
      EveryRunKeeps(states, labels, i - 1);
      assert Enabled(states[i - 1], labels[i - 1]);
      StepKeeps(states[i - 1], labels[i - 1]);
    }
  }

  lemma EmptyHolds(s: State)
    requires s.claims == map[] && s.locals == map[]
    ensures Inv(s)
  {
  }

  // ------------------------------------------------------------------------ the theorems

  /** In every interleaving every claimant but the latest of a valid chain is dead. */
  lemma EarlierClaimantsAreDead(states: seq<State>, labels: seq<Label>, i: nat, owners: seq<Claim>, k: nat)
    requires IsRun(states, labels) && i < |states| && IsChain(states[i].claims, owners) && k + 1 < |owners|
    ensures owners[k].owner !in states[i].alive
  {
    hide IsRun;
    EveryRunKeeps(states, labels, i);
    EarlierAreDead(states[i], owners, k);
  }

  lemma EarlierAreDead(s: State, owners: seq<Claim>, k: nat)
    requires Inv(s) && IsChain(s.claims, owners) && k + 1 < |owners|
    ensures owners[k].owner !in s.alive
  {
    assert k + 2 in s.claims && s.claims[k + 2] == owners[k + 1];
    assert LinksTo(owners[k + 1], owners, k + 1);
    assert PreviousDead(s, s.claims[k + 2]);
  }

  /** The process holds a claim that is on file, and has begun neither to abandon nor to dispose. */
  predicate Holds(s: State, p: nat) {
    var local := LocalOf(s, p);
    && p in s.alive && local.Claimed?
    && local.claim.ordinal in s.claims && s.claims[local.claim.ordinal] == local.claim
  }

  /** While the chain is valid at most one live process holds a claim at all, authorized or not. */
  lemma AtMostOneHolder(states: seq<State>, labels: seq<Label>, i: nat, p: nat, q: nat)
    requires IsRun(states, labels) && i < |states| && RecoveryOwners(states[i].claims).Some?
    requires Holds(states[i], p) && Holds(states[i], q)
    ensures p == q
  {
    hide IsRun;
    EveryRunKeeps(states, labels, i);
    OneHolder(states[i], RecoveryOwners(states[i].claims).value, p, q);
  }

  /** A live holder's claim is the latest: every earlier claimant is dead. */
  lemma HolderIsLatest(s: State, owners: seq<Claim>, p: nat)
    requires Inv(s) && IsChain(s.claims, owners) && Holds(s, p)
    ensures owners != [] && Last(owners) == LocalOf(s, p).claim && Last(owners).owner == p
  {
    hide RecoveryOwners, Linked;
    var claim := LocalOf(s, p).claim;
    assert LocalHolds(s, p, s.locals[p]);
    assert claim.ordinal in s.claims && owners[claim.ordinal - 1] == claim;
    if claim.ordinal < |owners| { EarlierAreDead(s, owners, claim.ordinal - 1); }
  }

  lemma OneHolder(s: State, owners: seq<Claim>, p: nat, q: nat)
    requires Inv(s) && IsChain(s.claims, owners) && Holds(s, p) && Holds(s, q)
    ensures p == q
  {
    HolderIsLatest(s, owners, p);
    HolderIsLatest(s, owners, q);
  }

  /** Nobody passes the write check while another live process holds a claim on file. */
  lemma AuthorizedExcludesHolders(states: seq<State>, labels: seq<Label>, i: nat, p: nat, q: nat)
    requires IsRun(states, labels) && i < |states| && Authorized(states[i], p)
    ensures Holds(states[i], q) ==> p == q
    ensures Authorized(states[i], q) ==> p == q
  {
    hide IsRun;
    var s := states[i];
    AuthorizedHolds(s, p);
    if Authorized(s, q) { AuthorizedHolds(s, q); }
    if Holds(s, q) { AtMostOneHolder(states, labels, i, p, q); }
  }

  lemma AuthorizedHolds(s: State, p: nat)
    requires Authorized(s, p)
    ensures Holds(s, p) && RecoveryOwners(s.claims).Some?
  {
    var owners := RecoveryOwners(s.claims).value;
    assert LinksTo(Last(owners), owners, |owners| - 1);
  }

  /** The write check compares a length and a digest, and thereby whole chains. */
  lemma AuthorizedExactly(s: State, p: nat)
    requires Inv(s)
    ensures Authorized(s, p) <==>
              && p in s.alive && LocalOf(s, p).Claimed?
              && IsChain(s.claims, LocalOf(s, p).owners + [LocalOf(s, p).claim])
  {
    hide RecoveryOwners, Linked;
    if Authorized(s, p) {
      DisposedChain(s, p);
    } else if LocalOf(s, p).Claimed? && IsChain(s.claims, LocalOf(s, p).owners + [LocalOf(s, p).claim]) {
      RecoveryOwnersAre(s.claims, LocalOf(s, p).owners + [LocalOf(s, p).claim]);
    }
  }

  lemma RecoveryOwnersAre(claims: map<nat, Claim>, owners: seq<Claim>)
    requires IsChain(claims, owners)
    ensures RecoveryOwners(claims) == Some(owners)
  {
    ChainIsListing(claims, owners);
  }

  /** The two steps of another process that take write authority away: a stale claim past the end, or a disposal under way. */
  predicate Disturbs(s: State, l: Label) {
    var local := LocalOf(s, l.process);
    match l
    case Install(_, _) => local.Probed? && |local.owners| + 1 !in s.claims
    case Unlink(_) =>
      && local.Disposing? && 0 < local.left <= |local.chain|
      && Without(s.claims, local.chain[local.left - 1]) != s.claims
    case _ => false
  }

  /** A live process that is giving its claim up has no claim on file below the latest of a valid chain. */
  lemma AbandonedIsNotOnFile(s: State, owners: seq<Claim>, q: nat)
    requires Inv(s) && IsChain(s.claims, owners) && owners != [] && q in s.alive && Last(owners).owner != q
    requires LocalOf(s, q).Abandoning?
    ensures Without(s.claims, LocalOf(s, q).claim) == s.claims
  {
    hide RecoveryOwners, Linked;
    var claim := LocalOf(s, q).claim;
    assert LocalHolds(s, q, s.locals[q]);
    if claim.ordinal in s.claims && s.claims[claim.ordinal] == claim {
      assert owners[claim.ordinal - 1] == claim;
      if claim.ordinal < |owners| { EarlierAreDead(s, owners, claim.ordinal - 1); }
    }
  }

  lemma DisturbedIsNotAuthorized(s: State, p: nat, l: Label)
    requires Inv(s) && Authorized(s, p) && Enabled(s, l) && l.process != p && Disturbs(s, l)
    ensures !Authorized(Step(s, l), p)
  {
    hide RecoveryOwners, Inv, Linked;
    var owners := RecoveryOwners(s.claims).value;
    var t := Step(s, l);
    if Authorized(t, p) {
      var now := RecoveryOwners(t.claims).value;
      LastFixesChain(now, owners);
      assert forall k :: k in t.claims <==> k in s.claims;
    }
  }

  /** Exactly those two steps of others end a process's write authority; everything else leaves it. */
  lemma AuthorityEndsExactlyWhenDisturbed(s: State, p: nat, l: Label)
    requires Inv(s) && Authorized(s, p) && Enabled(s, l) && l.process != p
    ensures Authorized(Step(s, l), p) <==> !Disturbs(s, l)
  {
    hide RecoveryOwners, Inv, IsChain;
    if Disturbs(s, l) {
      DisturbedIsNotAuthorized(s, p, l);
    } else {
      var owners := RecoveryOwners(s.claims).value;
      AuthorizedHolds(s, p);
      HolderIsLatest(s, owners, p);
      if l.Abandon? { AbandonedIsNotOnFile(s, owners, l.process); }
      assert Step(s, l).claims == s.claims;
    }
  }

  // --------------------------------------------------------------------------- disposal

  /** What is left of a disposal: the first `left` claims of the disposed chain, and nothing else. */
  ghost predicate PrefixLeft(s: State, p: nat) {
    var local := LocalOf(s, p);
    local.Disposing? && local.left <= |local.chain| && IsChain(s.claims, local.chain[..local.left])
  }

  lemma DisposalBegins(s: State, p: nat)
    requires Inv(s) && Authorized(s, p)
    ensures Enabled(s, BeginDispose(p)) && PrefixLeft(Step(s, BeginDispose(p)), p)
  {
    DisposedChain(s, p);
    var chain := LocalOf(s, p).owners + [LocalOf(s, p).claim];
    assert chain[..|chain|] == chain;
  }

  /** Without a disturbance, giving up unused puts the chain back that was read. */
  lemma AbandonGivesBack(s: State, p: nat)
    requires Inv(s) && Authorized(s, p)
    ensures var t := Step(s, BeginAbandon(p));
            && Enabled(s, BeginAbandon(p)) && Enabled(t, Abandon(p))
            && IsChain(Step(t, Abandon(p)).claims, LocalOf(s, p).owners) && LocalOf(Step(t, Abandon(p)), p) == Idle
  {
    hide RecoveryOwners;
    DisposedChain(s, p);
    var local := LocalOf(s, p);
    var chain := local.owners + [local.claim];
    assert chain[|local.owners|] == local.claim && local.claim.ordinal == |chain|;
    ShorterChain(s.claims, chain);
    assert chain[..|chain| - 1] == local.owners;
  }

  lemma ShorterChain(claims: map<nat, Claim>, chain: seq<Claim>)
    requires IsChain(claims, chain) && chain != []
    ensures IsChain(claims - {|chain|}, chain[..|chain| - 1])
  {
    hide Linked;
    PrefixIsLinked(chain, |chain| - 1);
  }

  lemma UnlinkLeavesPrefix(s: State, p: nat)
    requires Inv(s) && PrefixLeft(s, p) && LocalOf(s, p).left > 0
    ensures var local := LocalOf(s, p);
            IsChain(Without(s.claims, local.chain[local.left - 1]), local.chain[..local.left - 1])
  {
    hide RecoveryOwners, Linked;
    var local := LocalOf(s, p);
    var prefix := local.chain[..local.left];
    assert LocalHolds(s, p, local);
    var claim := local.chain[local.left - 1];
    assert claim == prefix[local.left - 1] && s.claims[local.left] == claim && claim.ordinal == local.left;
    ShorterChain(s.claims, prefix);
    assert prefix[..local.left - 1] == local.chain[..local.left - 1];
  }

  lemma OnFileInPrefix(s: State, p: nat, ordinal: nat)
    requires Inv(s) && PrefixLeft(s, p) && ordinal in s.claims
    ensures 1 <= ordinal <= LocalOf(s, p).left && s.claims[ordinal] == LocalOf(s, p).chain[ordinal - 1]
    ensures s.claims[ordinal].owner == p || s.claims[ordinal].owner !in s.alive
  {
    hide Linked;
    var local := LocalOf(s, p);
    assert LocalHolds(s, p, s.locals[p]);
    assert local.chain[..local.left][ordinal - 1] == local.chain[ordinal - 1];
  }

  /** A claim another live process is giving up is none of those still to be disposed of. */
  lemma AbandonedIsNotInPrefix(s: State, p: nat, q: nat)
    requires Inv(s) && PrefixLeft(s, p) && q != p && q in s.alive && LocalOf(s, q).Abandoning?
    ensures Without(s.claims, LocalOf(s, q).claim) == s.claims
  {
    hide RecoveryOwners, Linked;
    var local, gone := LocalOf(s, p), LocalOf(s, q).claim;
    assert LocalHolds(s, p, s.locals[p]) && LocalHolds(s, q, s.locals[q]);
    if gone.ordinal in s.claims { OnFileInPrefix(s, p, gone.ordinal); }
  }

  /** Newest first: every unlink, and every step of others that does not disturb, leaves a valid prefix 1..k. */
  lemma DisposalLeavesPrefix(s: State, p: nat, l: Label)
    requires Inv(s) && PrefixLeft(s, p) && Enabled(s, l)
    requires l.process != p ==> !Disturbs(s, l)
    ensures var t, local := Step(s, l), LocalOf(s, p);
            if l == Unlink(p) then
              if local.left == 0 then t.claims == s.claims && LocalOf(t, p) == Released
              else PrefixLeft(t, p) && LocalOf(t, p) == Disposing(local.chain, local.left - 1)
            else PrefixLeft(t, p) && LocalOf(t, p) == local
  {
    hide RecoveryOwners, IsChain, Inv;
    if l == Unlink(p) {
      if LocalOf(s, p).left > 0 { UnlinkLeavesPrefix(s, p); }
    } else {
      if l.Abandon? { AbandonedIsNotInPrefix(s, p, l.process); }
      assert Step(s, l).claims == s.claims;
    }
  }

  /** A step of another process leaves such a prefix exactly if it does not disturb. */
  lemma PrefixEndsExactlyWhenDisturbed(s: State, p: nat, l: Label)
    requires Inv(s) && PrefixLeft(s, p) && Enabled(s, l) && l.process != p
    ensures PrefixLeft(Step(s, l), p) <==> !Disturbs(s, l)
  {
    hide RecoveryOwners, Inv, Linked;
    if !Disturbs(s, l) {
      DisposalLeavesPrefix(s, p, l);
    } else if PrefixLeft(Step(s, l), p) {
      assert forall k :: k in Step(s, l).claims <==> k in s.claims;
    }
  }

  /** A disposal cut short anywhere leaves a chain that the next process can read, probe and extend. */
  lemma CutDisposalIsClaimable(s: State, p: nat)
    requires Inv(s) && PrefixLeft(s, p) && p !in s.alive
    ensures var prefix := LocalOf(s, p).chain[..LocalOf(s, p).left];
            && RecoveryOwners(s.claims) == Some(prefix)
            && (prefix != [] ==> Last(prefix).owner !in s.alive)
  {
    hide RecoveryOwners, Linked, IsChain;
    var local := LocalOf(s, p);
    assert LocalHolds(s, p, s.locals[p]);
    RecoveryOwnersAre(s.claims, local.chain[..local.left]);
  }

  lemma RunGrows(states: seq<State>, labels: seq<Label>, l: Label)
    requires IsRun(states, labels) && Enabled(states[|labels|], l)
    ensures IsRun(states + [Step(states[|labels|], l)], labels + [l])
  {
    hide Enabled, Step;
  }

  /** The claim a process makes after reading `owners`. */
  function NextClaim(owners: seq<Claim>, p: nat, claimId: nat): Claim {
    Claim(claimId, |owners| + 1, p, if owners == [] then None else Some(Last(owners)))
  }

  /** Nothing stands in the way of a process that claims a valid chain whose latest claimant is dead. */
  predicate Claimable(s: State, p: nat) {
    && p in s.alive && LocalOf(s, p).Idle? && RecoveryOwners(s.claims).Some?
    && var owners := RecoveryOwners(s.claims).value; (owners != [] ==> Last(owners).owner !in s.alive)
  }

  function AfterClaim(s: State, p: nat, claimId: nat): State
    requires Claimable(s, p)
  {
    var owners := RecoveryOwners(s.claims).value;
    s.(claims := s.claims[|owners| + 1 := NextClaim(owners, p, claimId)],
       locals := s.locals[p := Claimed(owners, NextClaim(owners, p, claimId))])
  }

  function AfterProbe(s: State, p: nat): State
    requires RecoveryOwners(s.claims).Some?
  {
    s.(locals := s.locals[p := Probed(RecoveryOwners(s.claims).value)])
  }

  lemma ReadAndProbe(s: State, p: nat)
    requires Claimable(s, p)
    ensures var read := s.(locals := s.locals[p := Read(RecoveryOwners(s.claims).value)]);
            && Enabled(s, ReadOwners(p)) && Step(s, ReadOwners(p)) == read
            && Enabled(read, Probe(p)) && Step(read, Probe(p)) == AfterProbe(s, p)
  {
    hide RecoveryOwners;
    var owners := RecoveryOwners(s.claims).value;
    assert s.locals[p := Read(owners)][p := Probed(owners)] == s.locals[p := Probed(owners)];
  }

  lemma InstallSucceeds(s: State, p: nat, claimId: nat)
    requires Claimable(s, p)
    ensures Enabled(AfterProbe(s, p), Install(p, claimId))
    ensures Step(AfterProbe(s, p), Install(p, claimId)) == AfterClaim(s, p, claimId)
  {
    hide RecoveryOwners, Linked;
    var owners := RecoveryOwners(s.claims).value;
    assert |owners| + 1 !in s.claims;
    assert s.locals[p := Probed(owners)][p := Claimed(owners, NextClaim(owners, p, claimId))]
        == s.locals[p := Claimed(owners, NextClaim(owners, p, claimId))];
  }

  lemma ClaimAuthorizes(s: State, p: nat, claimId: nat)
    requires Claimable(s, p)
    ensures Authorized(AfterClaim(s, p, claimId), p)
  {
    hide RecoveryOwners, IsChain, Linked;
    var owners := RecoveryOwners(s.claims).value;
    ExtendedChain(s.claims, owners, NextClaim(owners, p, claimId));
  }

  /** Any live process can claim such a chain, and is then authorized. */
  lemma DeadChainCanBeClaimed(states: seq<State>, labels: seq<Label>, p: nat, claimId: nat)
    returns (longer: seq<State>, more: seq<Label>)
    requires IsRun(states, labels) && Claimable(states[|labels|], p)
    ensures IsRun(longer, more) && |more| == |labels| + 3
    ensures longer[|more|] == AfterClaim(states[|labels|], p, claimId) && Authorized(longer[|more|], p)
  {
    hide RecoveryOwners, IsRun, Enabled, Step, Authorized, AfterClaim, AfterProbe;
    assert |states| == |labels| + 1 by { RunLength(states, labels); }
    var s := states[|labels|];
    var owners := RecoveryOwners(s.claims).value;
    ReadAndProbe(s, p);
    InstallSucceeds(s, p, claimId);
    ClaimAuthorizes(s, p, claimId);
    var read, probed := s.(locals := s.locals[p := Read(owners)]), AfterProbe(s, p);
    RunGrows(states, labels, ReadOwners(p));
    RunGrows(states + [read], labels + [ReadOwners(p)], Probe(p));
    RunGrows(states + [read] + [probed], labels + [ReadOwners(p)] + [Probe(p)], Install(p, claimId));
    longer := states + [read] + [probed] + [AfterClaim(s, p, claimId)];
    more := labels + [ReadOwners(p)] + [Probe(p)] + [Install(p, claimId)];
  }

  lemma ExtendedChain(claims: map<nat, Claim>, owners: seq<Claim>, claim: Claim)
    requires IsChain(claims, owners) && LinksTo(claim, owners, |owners|)
    ensures RecoveryOwners(claims[|owners| + 1 := claim]) == Some(owners + [claim])
  {
    hide RecoveryOwners, Linked, LinksTo;
    ClaimLinks(owners, claim);
    assert IsChain(claims[|owners| + 1 := claim], owners + [claim]);
    RecoveryOwnersAre(claims[|owners| + 1 := claim], owners + [claim]);
  }

  const first := Claim(0, 1, 1, None)
  const second := Claim(1, 2, 2, Some(first))
  const third := Claim(2, 2, 3, Some(first))

  /** Process 1 claims and dies; process 2 claims after it. */
  lemma SecondClaimant() returns (states: seq<State>, labels: seq<Label>)
    ensures IsRun(states, labels) && |labels| == 7
    ensures states[7] == State(map[1 := first, 2 := second], {2, 3}, map[1 := Claimed([], first), 2 := Claimed([first], second)])
    ensures Authorized(states[7], 2)
  {
    hide RecoveryOwners, IsChain;
    DemoChains();
    var s0 := State(map[], {1, 2, 3}, map[]);
    states, labels := DeadChainCanBeClaimed([s0], [], 1, 0);
    hide IsRun;
    assert |states| == 4 by { RunLength(states, labels); }
    RunGrows(states, labels, Die(1));
    states, labels := states + [Step(states[3], Die(1))], labels + [Die(1)];
    assert s0.alive - {1} == {2, 3};
    assert states[4].claims == map[1 := first];
    states, labels := DeadChainCanBeClaimed(states, labels, 2, 1);
  }

  /**
   A disposal does not keep others out. Process 2 disposes of two claims; once its own is
   gone process 3 reads the rest, claims and is authorized; the next unlink of process 2
   leaves a directory no reader accepts.
   */
  lemma DisposalDoesNotExclude() returns (states: seq<State>, labels: seq<Label>)
    ensures IsRun(states, labels) && |labels| == 13
    ensures 2 in states[12].alive && LocalOf(states[12], 2).Disposing? && Authorized(states[12], 3)
    ensures RecoveryOwners(states[13].claims).None?
  {
    hide RecoveryOwners, IsChain, IsRun;
    DemoChains();
    states, labels := SecondClaimant();
    assert |states| == 8 by { RunLength(states, labels); }
    RunGrows(states, labels, BeginDispose(2));
    states, labels := states + [Step(states[7], BeginDispose(2))], labels + [BeginDispose(2)];
    assert [first] + [second] == [first, second];
    RunGrows(states, labels, Unlink(2));
    states, labels := states + [Step(states[8], Unlink(2))], labels + [Unlink(2)];
    assert states[9].claims == map[1 := first];
    states, labels := DeadChainCanBeClaimed(states, labels, 3, 2);
    assert |states| == 13 by { RunLength(states, labels); }
    assert states[12].claims == map[1 := first, 2 := third];
    RunGrows(states, labels, Unlink(2));
    states, labels := states + [Step(states[12], Unlink(2))], labels + [Unlink(2)];
    assert states[13].claims == map[2 := third];
  }

  lemma RunLength(states: seq<State>, labels: seq<Label>)
    requires IsRun(states, labels)
    ensures |states| == |labels| + 1
  {
  }

  lemma DemoChains()
    ensures RecoveryOwners(map[]) == Some([])
    ensures RecoveryOwners(map[1 := first]) == Some([first])
    ensures RecoveryOwners(map[1 := first, 2 := second]) == Some([first, second])
    ensures RecoveryOwners(map[1 := first, 2 := third]) == Some([first, third])
    ensures RecoveryOwners(map[2 := third]).None?
  {
    hide RecoveryOwners;
    RecoveryOwnersAre(map[], []);
    RecoveryOwnersAre(map[1 := first], [first]);
    RecoveryOwnersAre(map[1 := first, 2 := second], [first, second]);
    RecoveryOwnersAre(map[1 := first, 2 := third], [first, third]);
    assert forall chain :: !IsChain(map[2 := third], chain) by {
      assert 1 !in map[2 := third] && 2 in map[2 := third];
    }
  }
}
