/**
 What registering and verifying an identity do, and the tier a user has at any time.
 */
module IdentityOutcomes {
  import opened Tables
  import opened Kyc
  import opened LedgerSpec
  import opened Runs
  import opened Guarantees

  /** After any run every user has exactly the tier that was earned. */
  lemma TierIsEarned(limits: Limits, ops: seq<Op>, u: nat, tier: Tier)
    requires Configured(limits) && u < |Reached(limits, ops).users|
    ensures var user := Reached(limits, ops).users[u]; user.tier == tier <==> Earns(user.identity, tier)
  {
    ReachedInv(limits, ops);
  }

  /** Each proof sets its own flag and no other, and the tier becomes the one now earned; nothing else changes. */
  lemma VerifyingSetsOneFlag(s: State, u: nat, proof: Proof)
    requires WellFormed(s) && u < |s.users| && Earns(s.users[u].identity, s.users[u].tier)
    ensures var r := VerifyIdentity(s, u, proof);
            var before := s.users[u];
            && |r.users| == |s.users|
            && var after := r.users[u];
               && r == s.(users := s.users[u := User(after.tier, before.frozen, after.identity)])
               && after.identity.bvn == (before.identity.bvn || proof.BvnProof?)
               && after.identity.nin == (before.identity.nin || proof.NinProof?)
               && after.identity.liveness == (before.identity.liveness || proof.LivenessProof?)
               && Earns(after.identity, after.tier)
  {
  }

  lemma RegisteringAddsAnEmptyWallet(s: State)
    requires WellFormed(s)
    ensures var r := Register(s);
            && r == s.(users := r.users, books := r.books) && r.books.entries == s.books.entries
            && r.users == s.users + [User(Tier0, false, Identity(false, false, false))]
            && r.books.balances == s.books.balances + [0] && |r.books.balances| == WalletOf(|s.users|) + 1
  {
  }
}
