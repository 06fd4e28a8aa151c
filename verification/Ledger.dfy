/**
 The balance ledger as the aggregation pallet sees it.

 A balance is the multiplicity of its owner in a multiset of units, so the cardinality of
 a multiset is the total it holds and sums of reserves are sums of multisets.

 The balances pallet itself is not part of this model. What it decides on its own is a
 parameter of each operation: whether a hold is granted, and how far a best-effort move
 goes.
 */
module Ledger {
  import opened Prelude

  type Account = nat

  /** The hold reasons under which submitters' funds wait for publication. */
  datatype Reason = Aggregation | Delivery

  type Holds = multiset<(Account, Reason)>

  datatype Balances = Balances(free: multiset<Account>, held: Holds) {
    function Total(): nat { |free| + |held| }
  }

  /** How far a best-effort operation goes: not at all (an error), up to a limit, or as far as
      the held balance allows. */
  datatype Effort = Refused | UpTo(limit: nat) | Whole

  /** The ledger's decisions about one held amount. */
  datatype Settlement = Settlement(transfer: Effort, release: Effort) {
    /** Best-effort moves are never cut short and refunds never fail. */
    predicate Full() { !transfer.UpTo? && release.Whole? }
  }

  /** `hold`: needs the amount in the free balance, and may still be refused. */
  function Hold(b: Balances, reason: Reason, who: Account, amount: nat, granted: bool): Option<Balances> {
    if granted && amount <= b.free[who]
    then Some(Balances(b.free[who := b.free[who] - amount],
                       b.held[(who, reason) := b.held[(who, reason)] + amount]))
    else None
  }

  /** Move `amount` from what `from` has on hold to the free balance of `to`. */
  function Unhold(b: Balances, reason: Reason, from: Account, to: Account, amount: nat): Balances
    requires amount <= b.held[(from, reason)]
  {
    Balances(b.free[to := b.free[to] + amount],
             b.held[(from, reason) := b.held[(from, reason)] - amount])
  }

  /** `release` with exact precision. */
  function ReleaseExact(b: Balances, reason: Reason, who: Account, amount: nat): Option<Balances> {
    if amount <= b.held[(who, reason)] then Some(Unhold(b, reason, who, who, amount)) else None
  }

  /** The amount a best-effort move shifts; `None` is an error that changes nothing. */
  function BestEffort(b: Balances, reason: Reason, from: Account, amount: nat, effort: Effort): Option<nat> {
    match effort
    case Refused => None
    case UpTo(limit) => Some(Min(limit, Min(amount, b.held[(from, reason)])))
    case Whole => Some(Min(amount, b.held[(from, reason)]))
  }

  /** `handle_held_funds`: pay a held amount to `dest`, or give it back to its owner when there
      is no `dest` or the transfer fails. */
  function HandleHeldFunds(b: Balances, reason: Reason, account: Account, dest: Option<Account>, amount: nat,
                           how: Settlement): Balances {
    var sent := if dest.Some? then BestEffort(b, reason, account, amount, how.transfer) else None;
    if sent.Some? then Unhold(b, reason, account, dest.value, sent.value)
    else
      match BestEffort(b, reason, account, amount, how.release)
      case Some(back) => Unhold(b, reason, account, account, back)
      case None => b
  }

  /** Who ends up with the amount when moves are full. */
  function Payee(account: Account, dest: Option<Account>, how: Settlement): Account {
    if dest.Some? && !how.transfer.Refused? then dest.value else account
  }

  /** Undoing a hold restores the ledger, so the failed second hold of a reservation leaves no trace. */
  lemma HoldThenRelease(b: Balances, reason: Reason, who: Account, amount: nat)
    ensures var h := Hold(b, reason, who, amount, true);
            h.Some? ==> ReleaseExact(h.value, reason, who, amount) == Some(b)
  {
    var h := Hold(b, reason, who, amount, true);
    if h.Some? {
      var back := Unhold(h.value, reason, who, who, amount);
      assert back.free == b.free && back.held == b.held;
    }
  }

  /** A settlement moves value but never creates or destroys it, and takes at most the amount,
      only from this hold. */
  lemma SettlementBounds(b: Balances, reason: Reason, account: Account, dest: Option<Account>, amount: nat,
                         how: Settlement)
    ensures var after := HandleHeldFunds(b, reason, account, dest, amount, how);
            && after.Total() == b.Total()
            && after.held <= b.held <= after.held[(account, reason) := after.held[(account, reason)] + amount]
  {
  }

  lemma UnholdMoves(b: Balances, reason: Reason, from: Account, to: Account, amount: nat)
    requires amount <= b.held[(from, reason)]
    ensures var after := Unhold(b, reason, from, to, amount);
            && (forall x :: after.free[x] == b.free[x] + if x == to then amount else 0)
            && (forall k :: after.held[k] + (if k == (from, reason) then amount else 0) == b.held[k])
  {
  }

  /** How much of an amount moves: none if refused, else what is there, up to the limit. */
  function Moved(b: Balances, reason: Reason, from: Account, amount: nat, effort: Effort): nat {
    var there := Min(amount, b.held[(from, reason)]);
    match effort
    case Refused => 0
    case UpTo(limit) => Min(limit, there)
    case Whole => there
  }

  /** What a settlement does to every balance: a transfer that is not refused goes to the destination, cut
      short or not; only without one, what is released goes back to the owner. */
  lemma SettlementExactly(b: Balances, reason: Reason, account: Account, dest: Option<Account>, amount: nat,
                          how: Settlement)
    ensures var after := HandleHeldFunds(b, reason, account, dest, amount, how);
            var sent := dest.Some? && how.transfer != Refused;
            var to := if sent then dest.value else account;
            var moved := Moved(b, reason, account, amount, if sent then how.transfer else how.release);
            && (forall x :: after.free[x] == b.free[x] + if x == to then moved else 0)
            && (forall k :: after.held[k] + (if k == (account, reason) then moved else 0) == b.held[k])
  {
    hide Unhold;
    var sent := dest.Some? && how.transfer != Refused;
    var moved := Moved(b, reason, account, amount, if sent then how.transfer else how.release);
    UnholdMoves(b, reason, account, if sent then dest.value else account, moved);
  }

  /** Full settlements pay exactly the amount to exactly one account. */
  lemma FullSettlement(b: Balances, reason: Reason, account: Account, dest: Option<Account>, amount: nat,
                       how: Settlement)
    requires how.Full() && amount <= b.held[(account, reason)]
    ensures HandleHeldFunds(b, reason, account, dest, amount, how)
         == Unhold(b, reason, account, Payee(account, dest, how), amount)
  {
  }
}
