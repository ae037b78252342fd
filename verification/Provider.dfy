/**
  What the provider is told about claims, in the whole system: the numbers a reply decodes to
  are a started claim's, and its signature is the payer's for exactly these numbers.
 */
module Provider {
  import opened Wrappers
  import opened Encoding
  import opened Records
  import opened Ledger
  import opened Protocol
  import opened ClaimRecords
  import opened Runs
  import opened Control

  /** The reply names a claim of channel id, and its signature authorises, for the payer, just the numbers it says. */
  ghost predicate Redeemable(cfg: Config, id: int, payer: Address, r: PaymentReply) {
    var nonce, amount := BytesToBigInt(r.channelNonce), BytesToBigInt(r.signedAmount);
    && BytesToBigInt(r.channelID) == id
    && if r.signature.None? then amount == 0 else Authorises(cfg, r.signature, payer, id, nonce, amount)
  }

  lemma ClaimReplyRedeemable(cfg: Config, id: int, s: Sys, n: int)
    requires Reachable(cfg, id, s) && n in ClaimsOf(cfg, id, s) && InRange(ClaimsOf(cfg, id, s)[n])
    ensures var r := ReplyOf(ClaimsOf(cfg, id, s)[n]);
            && Redeemable(cfg, id, s.payer, r) && BytesToBigInt(r.channelNonce) == n
  {
    ReachableInv(cfg, id, s);
    ReplyTells(ClaimsOf(cfg, id, s)[n]);
  }

  /**
    The list of claims in progress: in every reachable state each stored payment that is
    listed is told with its nonce and amount, and with the payer's signature for these.
   */
  lemma ListedReplyRedeemable(cfg: Config, id: int, s: Sys, n: int)
    requires Reachable(cfg, id, s) && n in s.sh.payments && InRange(s.sh.payments[n])
    ensures var p := s.sh.payments[n];
            && Redeemable(cfg, id, s.payer, ReplyOf(p))
            && Tells(ReplyOf(p), id, n, p.amount)
            && (ReplyOf(p) in InProgress([p]) <==> p.signature.Some? && Seen(p.amount))
  {
    var p := s.sh.payments[n];
    ClaimsKept(cfg, id, s, n);
    ClaimReplyRedeemable(cfg, id, s, n);
    ReplyTells(p);
    SeenIff(p.amount);
    assert [p][..0] == [];
  }

  /** And so is the claim a request was told it started. */
  lemma StartedReplyRedeemable(cfg: Config, id: int, s: Sys, pid: nat, p: Payment)
    requires Reachable(cfg, id, s) && pid in s.procs && s.procs[pid] == Done(ClaimStarted(p)) && InRange(p)
    ensures Redeemable(cfg, id, s.payer, ReplyOf(p)) && Tells(ReplyOf(p), id, p.channelNonce, p.amount)
    ensures s.sh.stored.Some? && p.channelNonce < s.sh.stored.value.nonce
    ensures !Passed(s.sh, p.channelNonce) ==> p.channelNonce in s.sh.payments && s.sh.payments[p.channelNonce] == p
  {
    ReachableInv(cfg, id, s);
    assert ClaimFits(s.sh, ClaimsOf(cfg, id, s), s.recorded, s.procs[pid]);
    ClaimReplyRedeemable(cfg, id, s, p.channelNonce);
    ReplyTells(p);
  }
}
