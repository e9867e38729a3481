/**
 The escrow contract under adversarial callers and callees. A transaction is an `Action`; the party that is
 paid may answer the payment with any finite tree of further actions on the same contract, and may reject it.
 */
module Escrow {

  type Address = nat
  const ZERO_ADDRESS: Address := 0

  datatype EscrowStatus = NoEscrow | Funded | Released | Refunded

  datatype Entry = Entry(payer: Address, recipient: Address, amount: nat, status: EscrowStatus)

  /** Observations: what each deposit fixed, and every payment that was not undone by a revert. */
  datatype Terms = Terms(payer: Address, recipient: Address, amount: nat)
  datatype Payout = Payout(id: nat, to: Address, amount: nat)

  datatype Ledger = Ledger(
    owner: Address,
    entered: bool,
    balance: nat,
    escrows: map<nat, Entry>,
    terms: map<nat, Terms>,
    payouts: seq<Payout>,
    forced: nat)

  /** `nested` is what the paid party does before it returns; if it does not accept, the payment fails. */
  datatype Reaction = Reaction(nested: seq<Action>, accepts: bool)

  datatype Action =
    | DepositCall(sender: Address, value: nat, id: nat, recipient: Address)
    | ReleaseCall(sender: Address, id: nat, callee: Reaction)
    | RefundCall(sender: Address, id: nat, callee: Reaction)
    | PlainTransfer(value: nat)
    | ForcedEther(value: nat)
    | TransferOwnership(sender: Address, newOwner: Address)
    | RenounceOwnership(sender: Address)

  function StatusOf(escrows: map<nat, Entry>, id: nat): EscrowStatus {
    if id in escrows then escrows[id].status else NoEscrow
  }

  function Deployed(admin: Address): Ledger {
    Ledger(admin, false, 0, map[], map[], [], 0)
  }

  // ----- what an action does

  predicate DepositAllowed(s: Ledger, value: nat, id: nat, recipient: Address) {
    !s.entered && value != 0 && recipient != ZERO_ADDRESS && StatusOf(s.escrows, id) == NoEscrow
  }

  function Deposited(s: Ledger, sender: Address, value: nat, id: nat, recipient: Address): Ledger {
    s.(balance := s.balance + value,
       escrows := s.escrows[id := Entry(sender, recipient, value, Funded)],
       terms := s.terms[id := Terms(sender, recipient, value)])
  }

  predicate PayoutAllowed(s: Ledger, sender: Address, id: nat) {
    sender == s.owner && !s.entered && StatusOf(s.escrows, id) == Funded && s.escrows[id].amount <= s.balance
  }

  function Payee(s: Ledger, id: nat, to: EscrowStatus): Address
    requires id in s.escrows
  {
    if to == Released then s.escrows[id].recipient else s.escrows[id].payer
  }

  /** The state in which the paid party gets control: entry settled, value moved, guard set. */
  function Paying(s: Ledger, id: nat, to: EscrowStatus): Ledger
    requires id in s.escrows && s.escrows[id].amount <= s.balance
  {
    var e := s.escrows[id];
    s.(entered := true,
       balance := s.balance - e.amount,
       escrows := s.escrows[id := e.(amount := 0, status := to)],
       payouts := s.payouts + [Payout(id, Payee(s, id, to), e.amount)])
  }

  function Exec(s: Ledger, a: Action): (r: (Ledger, bool))
    decreases a, 1
  {
    match a
    case DepositCall(sender, value, id, recipient) =>
      if DepositAllowed(s, value, id, recipient) then (Deposited(s, sender, value, id, recipient), true) else (s, false)
    case ReleaseCall(sender, id, callee) =>
      if !PayoutAllowed(s, sender, id) || !callee.accepts then (s, false)
      else (ExecAll(Paying(s, id, Released), callee.nested).(entered := false), true)
    case RefundCall(sender, id, callee) =>
      if !PayoutAllowed(s, sender, id) || !callee.accepts then (s, false)
      else (ExecAll(Paying(s, id, Refunded), callee.nested).(entered := false), true)
    case PlainTransfer(value) => (s, false)
    case ForcedEther(value) => (s.(balance := s.balance + value, forced := s.forced + value), true)
    case TransferOwnership(sender, newOwner) =>
      if sender == s.owner && newOwner != ZERO_ADDRESS then (s.(owner := newOwner), true) else (s, false)
    case RenounceOwnership(sender) =>
      if sender == s.owner then (s.(owner := ZERO_ADDRESS), true) else (s, false)
  }

  function ExecAll(s: Ledger, actions: seq<Action>): Ledger
    decreases actions, 0
  {
    if actions == [] then s else ExecAll(Exec(s, actions[0]).0, actions[1..])
  }

  // ----- sums over the unbounded mapping

  function Held(e: Entry): nat { if e.status == Funded then e.amount else 0 }

  ghost function TotalHeld(escrows: map<nat, Entry>): nat
    decreases |escrows|
  {
    if escrows == map[] then 0 else
    var id :| id in escrows;
    Held(escrows[id]) + TotalHeld(escrows - {id})
  }

  /** The total does not depend on the order of summation. */
  lemma {:induction false} TotalSplit(escrows: map<nat, Entry>, id: nat)
    requires id in escrows
    ensures TotalHeld(escrows) == Held(escrows[id]) + TotalHeld(escrows - {id})
    decreases |escrows|
  {
    var first :| first in escrows && TotalHeld(escrows) == Held(escrows[first]) + TotalHeld(escrows - {first});
    if first != id {
      TotalSplit(escrows - {first}, id);
      TotalSplit(escrows - {id}, first);
      assert escrows - {first} - {id} == escrows - {id} - {first};
    }
  }

  lemma TotalUpdate(escrows: map<nat, Entry>, id: nat, e: Entry)
    ensures TotalHeld(escrows[id := e]) ==
            TotalHeld(escrows) + Held(e) - (if id in escrows then Held(escrows[id]) else 0)
  {
    var after := escrows[id := e];
    TotalSplit(after, id);
    if id in escrows {
      TotalSplit(escrows, id);
      assert after - {id} == escrows - {id};
    } else {
      assert after - {id} == escrows;
    }
  }

  // ----- the invariant

  /** An entry agrees with the terms of its deposit and holds them until it is settled. */
  predicate EntryInv(e: Entry, t: Terms) {
    && e.payer == t.payer && e.recipient == t.recipient && t.amount > 0
    && e.status != NoEscrow
    && e.amount == (if e.status == Funded then t.amount else 0)
  }

  predicate EntriesInv(s: Ledger) {
    s.escrows.Keys == s.terms.Keys && forall id | id in s.escrows :: EntryInv(s.escrows[id], s.terms[id])
  }

  /** The party fixed at deposit to whom a settled entry is paid. */
  function DueTo(e: Entry, t: Terms): Address { if e.status == Released then t.recipient else t.payer }

  predicate IsPayoutOf(p: Payout, e: Entry, t: Terms) {
    && (e.status == Released || e.status == Refunded)
    && p.amount == t.amount
    && p.to == DueTo(e, t)
  }

  predicate Paid(payouts: seq<Payout>, id: nat) {
    exists i | 0 <= i < |payouts| :: payouts[i].id == id
  }

  /** Payments correspond one to one to settled entries, each of the deposited amount to the party it is due to. */
  predicate PayoutsInv(s: Ledger)
    requires EntriesInv(s)
  {
    && (forall i | 0 <= i < |s.payouts| ::
          && s.payouts[i].id in s.escrows
          && IsPayoutOf(s.payouts[i], s.escrows[s.payouts[i].id], s.terms[s.payouts[i].id]))
    && (forall i, j | 0 <= i < j < |s.payouts| :: s.payouts[i].id != s.payouts[j].id)
    && (forall id | id in s.escrows && s.escrows[id].status != Funded :: Paid(s.payouts, id))
  }

  /** Conservation, exactly: every unit held is a funded deposit or was forced in. */
  ghost predicate Conserved(s: Ledger) {
    s.balance == TotalHeld(s.escrows) + s.forced
  }

  ghost predicate Inv(s: Ledger) {
    EntriesInv(s) && PayoutsInv(s) && Conserved(s)
  }

  /** Terms and settled entries are final and payments are never taken back. How entries move: `OneMovePerAction`. */
  predicate Onward(s: Ledger, s': Ledger) {
    && (forall id | id in s.escrows ::
          && id in s'.escrows && id in s.terms && id in s'.terms && s'.terms[id] == s.terms[id]
          && (s.escrows[id].status != Funded ==> s'.escrows[id] == s.escrows[id]))
    && s.payouts <= s'.payouts
  }

  lemma DepositKeeps(s: Ledger, sender: Address, value: nat, id: nat, recipient: Address)
    requires Inv(s) && DepositAllowed(s, value, id, recipient)
    ensures Inv(Deposited(s, sender, value, id, recipient)) && Onward(s, Deposited(s, sender, value, id, recipient))
  {
    var s' := Deposited(s, sender, value, id, recipient);
    assert id !in s.escrows;
    TotalUpdate(s.escrows, id, s'.escrows[id]);
    forall k | k in s'.escrows ensures EntryInv(s'.escrows[k], s'.terms[k]) {
      if k != id {
        assert EntryInv(s.escrows[k], s.terms[k]);
      }
    }
  }

  lemma PayingKeeps(s: Ledger, sender: Address, id: nat, to: EscrowStatus)
    requires Inv(s) && PayoutAllowed(s, sender, id) && (to == Released || to == Refunded)
    ensures Inv(Paying(s, id, to)) && Onward(s, Paying(s, id, to))
  {
    var s' := Paying(s, id, to);
    assert EntryInv(s.escrows[id], s.terms[id]);
    TotalUpdate(s.escrows, id, s'.escrows[id]);
    assert EntriesInv(s');
    PayoutAdded(s, id, to);
  }

  lemma PayoutAdded(s: Ledger, id: nat, to: EscrowStatus)
    requires EntriesInv(s) && PayoutsInv(s) && (to == Released || to == Refunded)
    requires id in s.escrows && s.escrows[id].status == Funded && s.escrows[id].amount <= s.balance
    requires EntriesInv(Paying(s, id, to))
    ensures PayoutsInv(Paying(s, id, to))
  {
    var s' := Paying(s, id, to);
    var n := |s.payouts|;
    assert EntryInv(s.escrows[id], s.terms[id]);
    assert forall i | 0 <= i < n :: s'.payouts[i] == s.payouts[i] && s.payouts[i].id != id;
    forall k | k in s'.escrows && s'.escrows[k].status != Funded ensures Paid(s'.payouts, k) {
      if k == id {
        assert s'.payouts[n].id == id;
      } else {
        var i :| 0 <= i < n && s.payouts[i].id == k;
        assert s'.payouts[i].id == k;
      }
    }
  }

  lemma OnwardTransitive(a: Ledger, b: Ledger, c: Ledger)
    requires Onward(a, b) && Onward(b, c)
    ensures Onward(a, c)
  {
  }

  /** The guard flag and the owner play no part in the invariant. */
  lemma FlagsKeep(s: Ledger, entered: bool, owner: Address)
    requires Inv(s)
    ensures Inv(s.(entered := entered, owner := owner)) && Onward(s, s.(entered := entered, owner := owner))
  {
  }

  lemma ForcedKeeps(s: Ledger, value: nat)
    requires Inv(s)
    ensures var s' := s.(balance := s.balance + value, forced := s.forced + value); Inv(s') && Onward(s, s')
  {
  }

  lemma {:induction false} ExecKeeps(s: Ledger, a: Action)
    requires Inv(s)
    ensures Inv(Exec(s, a).0) && Onward(s, Exec(s, a).0)
    decreases a, 1
  {
    match a {
      case DepositCall(sender, value, id, recipient) =>
        if DepositAllowed(s, value, id, recipient) { DepositKeeps(s, sender, value, id, recipient); }
      case ReleaseCall(sender, id, callee) =>
        if PayoutAllowed(s, sender, id) && callee.accepts { PayoutKeeps(s, sender, id, Released, callee.nested); }
      case RefundCall(sender, id, callee) =>
        if PayoutAllowed(s, sender, id) && callee.accepts { PayoutKeeps(s, sender, id, Refunded, callee.nested); }
      case ForcedEther(value) => ForcedKeeps(s, value);
      case TransferOwnership(sender, newOwner) => FlagsKeep(s, s.entered, newOwner);
      case RenounceOwnership(sender) => FlagsKeep(s, s.entered, ZERO_ADDRESS);
      case PlainTransfer(value) =>
    }
  }

  lemma {:induction false} PayoutKeeps(s: Ledger, sender: Address, id: nat, to: EscrowStatus, nested: seq<Action>)
    requires Inv(s) && PayoutAllowed(s, sender, id) && (to == Released || to == Refunded)
    ensures var s' := ExecAll(Paying(s, id, to), nested).(entered := false); Inv(s') && Onward(s, s')
    decreases nested, 1
  {
    hide Inv, Onward, Paying;
    var s1 := Paying(s, id, to);
    PayingKeeps(s, sender, id, to);
    ExecAllKeeps(s1, nested);
    var s2 := ExecAll(s1, nested);
    FlagsKeep(s2, false, s2.owner);
    OnwardTransitive(s, s1, s2);
    OnwardTransitive(s, s2, s2.(entered := false));
  }

  /**
   Whatever is called, in whatever order, nested however deep, accepted or rejected: the invariant holds at
   the end, entries only move onward, and no payment is taken back.
   */
  lemma {:induction false} ExecAllKeeps(s: Ledger, actions: seq<Action>)
    requires Inv(s)
    ensures Inv(ExecAll(s, actions)) && Onward(s, ExecAll(s, actions))
    decreases actions, 0
  {
    hide Inv, Onward;
    if actions == [] {
      FlagsKeep(s, s.entered, s.owner);
    } else {
      var s1 := Exec(s, actions[0]).0;
      ExecKeeps(s, actions[0]);
      ExecAllKeeps(s1, actions[1..]);
      OnwardTransitive(s, s1, ExecAll(s1, actions[1..]));
    }
  }

  /** While the guard is set nothing but forced ether gets through: nested calls cannot touch any escrow. */
  lemma {:induction false} GuardFreezes(s: Ledger, actions: seq<Action>)
    requires s.entered
    ensures var s' := ExecAll(s, actions);
            && s'.entered && s'.escrows == s.escrows && s'.terms == s.terms && s'.payouts == s.payouts
            && s'.balance - s'.forced == s.balance - s.forced
    decreases actions
  {
    if actions != [] {
      GuardFreezes(Exec(s, actions[0]).0, actions[1..]);
    }
  }

  predicate Settlement(a: Action, id: nat) {
    (a.ReleaseCall? || a.RefundCall?) && a.id == id
  }

  /**
   Each transaction moves an escrow at most one step, and only the transaction meant for it: a deposit from None to
   Funded, the owner's release or refund from Funded to Released or Refunded, whatever the payee does meanwhile.
   */
  lemma OneMovePerAction(s: Ledger, a: Action, id: nat)
    ensures var before, after := StatusOf(s.escrows, id), StatusOf(Exec(s, a).0.escrows, id);
            || after == before
            || (before == NoEscrow && after == Funded && a.DepositCall? && a.id == id)
            || (before == Funded && Settlement(a, id) && a.sender == s.owner
                && after == if a.ReleaseCall? then Released else Refunded)
  {
    match a {
      case ReleaseCall(sender, k, callee) =>
        if PayoutAllowed(s, sender, k) { GuardFreezes(Paying(s, k, Released), callee.nested); }
      case RefundCall(sender, k, callee) =>
        if PayoutAllowed(s, sender, k) { GuardFreezes(Paying(s, k, Refunded), callee.nested); }
      case _ =>
    }
  }

  predicate IsSettled(status: EscrowStatus) { status == Released || status == Refunded }

  /** So over any run a settled escrow was Funded just before the owner's settlement of it. */
  lemma {:induction false} SettledWasFunded(s: Ledger, actions: seq<Action>, id: nat) returns (k: nat)
    requires !IsSettled(StatusOf(s.escrows, id)) && IsSettled(StatusOf(ExecAll(s, actions).escrows, id))
    ensures k < |actions| && Settlement(actions[k], id)
    ensures var s' := ExecAll(s, actions[..k]); StatusOf(s'.escrows, id) == Funded && actions[k].sender == s'.owner
    decreases |actions|
  {
    var s1 := Exec(s, actions[0]).0;
    OneMovePerAction(s, actions[0], id);
    if IsSettled(StatusOf(s1.escrows, id)) {
      k := 0;
    } else {
      var rest := SettledWasFunded(s1, actions[1..], id);
      k := rest + 1;
      assert actions[..k][1..] == actions[1..][..rest];
    }
  }

  /**
   The theorem for a deployed contract: it can always pay everything it owes; a settled escrow has been paid
   exactly its deposit, exactly once, to the party named when it was funded; an open one has not been paid.
   */
  lemma EscrowIsSafe(admin: Address, actions: seq<Action>, later: seq<Action>, id: nat)
    ensures var s := ExecAll(Deployed(admin), actions);
            && s.balance >= TotalHeld(s.escrows)
            && (id in s.escrows ==>
                  && id in s.terms
                  && (s.escrows[id].status == Funded ==>
                        s.escrows[id].amount == s.terms[id].amount && !Paid(s.payouts, id))
                  && (s.escrows[id].status != Funded ==>
                        exists i | 0 <= i < |s.payouts| ::
                          && s.payouts[i] == Payout(id, DueTo(s.escrows[id], s.terms[id]), s.terms[id].amount)
                          && forall j | 0 <= j < |s.payouts| && j != i :: s.payouts[j].id != id))
    ensures Onward(ExecAll(Deployed(admin), actions), ExecAll(ExecAll(Deployed(admin), actions), later))
  {
    var s := ExecAll(Deployed(admin), actions);
    DeployedInv(admin);
    ExecAllKeeps(Deployed(admin), actions);
    ExecAllKeeps(s, later);
    if id in s.escrows && s.escrows[id].status != Funded {
      PaidExactlyOnce(s, id);
    }
  }

  // ----- deposits, told by the calls alone

  lemma {:induction false} ExecAllLast(s: Ledger, actions: seq<Action>, last: Action)
    ensures ExecAll(s, actions + [last]) == Exec(ExecAll(s, actions), last).0
    decreases |actions|
  {
    if actions == [] {
      assert [last][1..] == [];
    } else {
      assert (actions + [last])[1..] == actions[1..] + [last];
      ExecAllLast(Exec(s, actions[0]).0, actions[1..], last);
    }
  }

  lemma {:induction false} ExecAllSplit(s: Ledger, a: seq<Action>, b: seq<Action>)
    ensures ExecAll(s, a + b) == ExecAll(ExecAll(s, a), b)
    decreases |b|
  {
    if b == [] {
      assert a + b == a;
    } else {
      var init, last := b[..|b|-1], b[|b|-1];
      ExecAllSplit(s, a, init);
      ExecAllLast(s, a + init, last);
      ExecAllLast(ExecAll(s, a), init, last);
      assert (a + init) + [last] == a + b && init + [last] == b;
    }
  }

  /** The `k`-th transaction of a run is a deposit under `id` that the contract accepts. */
  predicate AcceptsDeposit(s: Ledger, actions: seq<Action>, k: nat, id: nat)
    requires k < |actions|
  {
    actions[k].DepositCall? && actions[k].id == id && Exec(ExecAll(s, actions[..k]), actions[k]).1
  }

  predicate EverDeposited(s: Ledger, actions: seq<Action>, id: nat) {
    exists k | 0 <= k < |actions| :: AcceptsDeposit(s, actions, k, id)
  }

  lemma EverDepositedLast(s: Ledger, actions: seq<Action>, last: Action, id: nat)
    ensures EverDeposited(s, actions + [last], id) <==>
              || EverDeposited(s, actions, id)
              || (last.DepositCall? && last.id == id && Exec(ExecAll(s, actions), last).1)
  {
    var more := actions + [last];
    assert more[..|actions|] == actions && more[|actions|] == last;
    assert forall k | 0 <= k < |actions| :: more[..k] == actions[..k] && more[k] == actions[k];
    if EverDeposited(s, actions, id) {
      var k :| 0 <= k < |actions| && AcceptsDeposit(s, actions, k, id);
      assert AcceptsDeposit(s, more, k, id);
    }
    if last.DepositCall? && last.id == id && Exec(ExecAll(s, actions), last).1 {
      assert AcceptsDeposit(s, more, |actions|, id);
    }
    if EverDeposited(s, more, id) {
      var k :| 0 <= k < |more| && AcceptsDeposit(s, more, k, id);
      assert k < |actions| ==> AcceptsDeposit(s, actions, k, id);
    }
  }

  /** A transaction leaves the guard as it found it, and only an accepted deposit brings an id into use. */
  lemma ActionFrame(s: Ledger, a: Action, id: nat)
    requires Inv(s)
    ensures Exec(s, a).0.entered == s.entered
    ensures id in Exec(s, a).0.escrows <==> id in s.escrows || (a.DepositCall? && a.id == id && Exec(s, a).1)
  {
    match a {
      case ReleaseCall(sender, k, callee) =>
        if PayoutAllowed(s, sender, k) { GuardFreezes(Paying(s, k, Released), callee.nested); }
      case RefundCall(sender, k, callee) =>
        if PayoutAllowed(s, sender, k) { GuardFreezes(Paying(s, k, Refunded), callee.nested); }
      case _ =>
    }
  }

  lemma {:induction false} UsedExactlyWhenDeposited(admin: Address, actions: seq<Action>, id: nat)
    ensures var s := ExecAll(Deployed(admin), actions);
            Inv(s) && !s.entered && (id in s.escrows <==> EverDeposited(Deployed(admin), actions, id))
    decreases |actions|
  {
    DeployedInv(admin);
    ExecAllKeeps(Deployed(admin), actions);
    if actions != [] {
      var init, last := actions[..|actions|-1], actions[|actions|-1];
      assert init + [last] == actions;
      UsedExactlyWhenDeposited(admin, init, id);
      ExecAllLast(Deployed(admin), init, last);
      EverDepositedLast(Deployed(admin), init, last, id);
      ActionFrame(ExecAll(Deployed(admin), init), last, id);
    }
  }

  /**
   A deposit is accepted exactly when it carries value, names a recipient, and no deposit under its id has been
   accepted before; whatever else has been called, settled or nested meanwhile.
   */
  lemma DepositAcceptedExactly(
    admin: Address, actions: seq<Action>, sender: Address, value: nat, id: nat, recipient: Address)
    ensures Exec(ExecAll(Deployed(admin), actions), DepositCall(sender, value, id, recipient)).1 <==>
              value > 0 && recipient != 0 && !EverDeposited(Deployed(admin), actions, id)
  {
    UsedExactlyWhenDeposited(admin, actions, id);
    var s := ExecAll(Deployed(admin), actions);
    assert id in s.escrows ==> EntryInv(s.escrows[id], s.terms[id]);
  }

  /** The one payment made for `id` is `p`. */
  predicate PaidOnce(payouts: seq<Payout>, id: nat, p: Payout) {
    exists i | 0 <= i < |payouts| :: payouts[i] == p && forall j | 0 <= j < |payouts| && j != i :: payouts[j].id != id
  }

  lemma DepositFixesTerms(s: Ledger, sender: Address, value: nat, id: nat, recipient: Address)
    requires Exec(s, DepositCall(sender, value, id, recipient)).1
    ensures var s' := Exec(s, DepositCall(sender, value, id, recipient)).0;
            id in s'.escrows && id in s'.terms && s'.terms[id] == Terms(sender, recipient, value)
  {
  }

  /**
   What an accepted deposit comes to, told by its own arguments: in every later state it is still held in full and
   unpaid, or it was released and its recipient got exactly the value, once, or it was refunded and its sender did.
   */
  lemma DepositIsKept(
    admin: Address, before: seq<Action>, sender: Address, value: nat, id: nat, recipient: Address, later: seq<Action>)
    requires Exec(ExecAll(Deployed(admin), before), DepositCall(sender, value, id, recipient)).1
    ensures var s := ExecAll(Deployed(admin), before + [DepositCall(sender, value, id, recipient)] + later);
            && id in s.escrows
            && match s.escrows[id].status
               case Funded => s.escrows[id].amount == value && forall i | 0 <= i < |s.payouts| :: s.payouts[i].id != id
               case Released => PaidOnce(s.payouts, id, Payout(id, recipient, value))
               case Refunded => PaidOnce(s.payouts, id, Payout(id, sender, value))
               case NoEscrow => false
  {
    hide Onward;
    var call := DepositCall(sender, value, id, recipient);
    var s0 := ExecAll(Deployed(admin), before);
    var s1 := Exec(s0, call).0;
    var s := ExecAll(s1, later);
    DeployedInv(admin);
    ExecAllKeeps(Deployed(admin), before);
    ExecKeeps(s0, call);
    ExecAllKeeps(s1, later);
    ExecAllLast(Deployed(admin), before, call);
    ExecAllSplit(Deployed(admin), before + [call], later);
    DepositFixesTerms(s0, sender, value, id, recipient);
    TermsStay(s1, s, id);
    assert EntryInv(s.escrows[id], s.terms[id]);
    if s.escrows[id].status != Funded {
      PaidExactlyOnce(s, id);
    } else {
      UnpaidWhileFunded(s, id);
    }
  }

  lemma TermsStay(s: Ledger, s': Ledger, id: nat)
    requires Onward(s, s') && id in s.escrows
    ensures id in s'.escrows && id in s.terms && id in s'.terms && s'.terms[id] == s.terms[id]
  {
  }

  lemma UnpaidWhileFunded(s: Ledger, id: nat)
    requires Inv(s) && id in s.escrows && s.escrows[id].status == Funded
    ensures forall i | 0 <= i < |s.payouts| :: s.payouts[i].id != id
  {
  }

  /** A call that does not go through changes nothing, and a payment its payee rejects does not go through. */
  lemma RevertedChangesNothing(s: Ledger, a: Action)
    ensures !Exec(s, a).1 ==> Exec(s, a).0 == s
    ensures (a.ReleaseCall? || a.RefundCall?) && !a.callee.accepts ==> !Exec(s, a).1
    ensures a.PlainTransfer? ==> !Exec(s, a).1
  {
  }

  // ----- the owner

  /** Somewhere in these calls or the calls nested in them, `who` is the caller of a guarded function. */
  predicate CallsAs(actions: seq<Action>, who: Address)
    decreases actions, 0
  {
    actions != [] && (CallsOnceAs(actions[0], who) || CallsAs(actions[1..], who))
  }

  predicate CallsOnceAs(a: Action, who: Address)
    decreases a, 1
  {
    match a
    case ReleaseCall(sender, _, callee) => sender == who || CallsAs(callee.nested, who)
    case RefundCall(sender, _, callee) => sender == who || CallsAs(callee.nested, who)
    case TransferOwnership(sender, _) => sender == who
    case RenounceOwnership(sender) => sender == who
    case _ => false
  }

  /** Without a call by the owner nothing is settled, nothing is paid and the contract stays the owner's. */
  lemma {:induction false} NothingWithoutOwner(s: Ledger, actions: seq<Action>)
    requires !CallsAs(actions, s.owner)
    ensures var s' := ExecAll(s, actions);
            && s'.owner == s.owner && s'.payouts == s.payouts
            && forall id | id in s.escrows && s.escrows[id].status != NoEscrow ::
                 id in s'.escrows && s'.escrows[id] == s.escrows[id]
    decreases |actions|
  {
    if actions != [] {
      NothingWithoutOwner(Exec(s, actions[0]).0, actions[1..]);
    }
  }

  /** The owner can hand the contract to anybody but the zero address, and can give it up. */
  lemma OwnerHandsOver(s: Ledger, newOwner: Address)
    ensures Exec(s, TransferOwnership(s.owner, newOwner)) ==
              if newOwner != 0 then (s.(owner := newOwner), true) else (s, false)
    ensures Exec(s, RenounceOwnership(s.owner)) == (s.(owner := 0), true)
  {
  }

  /** The contract is never short of money: the owner can settle any funded escrow whose payee accepts. */
  lemma FundedIsPayable(s: Ledger, id: nat, nested: seq<Action>)
    requires Inv(s) && !s.entered && id in s.escrows && s.escrows[id].status == Funded
    ensures Exec(s, ReleaseCall(s.owner, id, Reaction(nested, true))).1
    ensures Exec(s, RefundCall(s.owner, id, Reaction(nested, true))).1
  {
    TotalSplit(s.escrows, id);
  }

  lemma DeployedInv(admin: Address)
    ensures Inv(Deployed(admin))
  {
  }

  lemma PaidExactlyOnce(s: Ledger, id: nat)
    requires Inv(s) && id in s.escrows && s.escrows[id].status != Funded
    ensures id in s.terms
    ensures exists i | 0 <= i < |s.payouts| ::
              && s.payouts[i] == Payout(id, DueTo(s.escrows[id], s.terms[id]), s.terms[id].amount)
              && forall j | 0 <= j < |s.payouts| && j != i :: s.payouts[j].id != id
  {
    var i :| 0 <= i < |s.payouts| && s.payouts[i].id == id;
    assert IsPayoutOf(s.payouts[i], s.escrows[id], s.terms[id]);
    forall j | 0 <= j < |s.payouts| && j != i ensures s.payouts[j].id != id {
      var lo, hi := if i < j then i else j, if i < j then j else i;
      assert s.payouts[lo].id != s.payouts[hi].id;
    }
  }

  // ----- the contract

  /** The contract with its storage updated in place; a revert restores it. */
  class AegisEscrow {
    var owner: Address
    var entered: bool
    var balance: nat
    var escrows: map<nat, Entry>
    ghost var terms: map<nat, Terms>
    ghost var payouts: seq<Payout>
    ghost var forced: nat

    ghost function State(): Ledger
      reads this
    {
      Ledger(owner, entered, balance, escrows, terms, payouts, forced)
    }

    constructor (admin: Address)
      requires admin != ZERO_ADDRESS
      ensures State() == Deployed(admin)
    {
      owner, entered, balance, escrows := admin, false, 0, map[];
      terms, payouts, forced := map[], [], 0;
    }

    method Deposit(sender: Address, value: nat, id: nat, recipient: Address) returns (ok: bool)
      modifies this
      ensures (State(), ok) == Exec(old(State()), DepositCall(sender, value, id, recipient))
    {
      if entered || value == 0 || recipient == ZERO_ADDRESS || StatusOf(escrows, id) != NoEscrow {
        return false;
      }
      balance := balance + value;
      escrows := escrows[id := Entry(sender, recipient, value, Funded)];
      terms := terms[id := Terms(sender, recipient, value)];
      return true;
    }

    /** A payment: value moves, the payee runs, and the result tells whether it took the money. */
    method CallWithValue(id: nat, to: Address, amount: nat, callee: Reaction) returns (sent: bool)
      modifies this
      ensures sent <==> amount <= old(balance) && callee.accepts
      ensures sent ==>
                var paid := old(State()).(
                  balance := old(balance) - amount, payouts := old(payouts) + [Payout(id, to, amount)]);
                State() == ExecAll(paid, callee.nested)
      decreases callee, 2
    {
      if balance < amount {
        return false;
      }
      balance := balance - amount;
      payouts := payouts + [Payout(id, to, amount)];
      PerformAll(callee.nested);
      return callee.accepts;
    }

    method Release(sender: Address, id: nat, callee: Reaction) returns (ok: bool)
      modifies this
      ensures (State(), ok) == Exec(old(State()), ReleaseCall(sender, id, callee))
      decreases callee, 3
    {
      if sender != owner || entered || StatusOf(escrows, id) != Funded {
        return false;
      }
      var owner0, balance0, escrows0 := owner, balance, escrows;
      ghost var terms0, payouts0, forced0 := terms, payouts, forced;
      var amount, recipient := escrows[id].amount, escrows[id].recipient;
      entered := true;
      escrows := escrows[id := escrows[id].(amount := 0, status := Released)];
      var sent := CallWithValue(id, recipient, amount, callee);
      if !sent {
        owner, entered, balance, escrows := owner0, false, balance0, escrows0;
        terms, payouts, forced := terms0, payouts0, forced0;
        return false;
      }
      entered := false;
      return true;
    }

    method Refund(sender: Address, id: nat, callee: Reaction) returns (ok: bool)
      modifies this
      ensures (State(), ok) == Exec(old(State()), RefundCall(sender, id, callee))
      decreases callee, 3
    {
      if sender != owner || entered || StatusOf(escrows, id) != Funded {
        return false;
      }
      var owner0, balance0, escrows0 := owner, balance, escrows;
      ghost var terms0, payouts0, forced0 := terms, payouts, forced;
      var amount, payer := escrows[id].amount, escrows[id].payer;
      entered := true;
      escrows := escrows[id := escrows[id].(amount := 0, status := Refunded)];
      var sent := CallWithValue(id, payer, amount, callee);
      if !sent {
        owner, entered, balance, escrows := owner0, false, balance0, escrows0;
        terms, payouts, forced := terms0, payouts0, forced0;
        return false;
      }
      entered := false;
      return true;
    }

    method Perform(a: Action) returns (ok: bool)
      modifies this
      ensures (State(), ok) == Exec(old(State()), a)
      decreases a, 4
    {
      match a {
        case DepositCall(sender, value, id, recipient) => ok := Deposit(sender, value, id, recipient);
        case ReleaseCall(sender, id, callee) => ok := Release(sender, id, callee);
        case RefundCall(sender, id, callee) => ok := Refund(sender, id, callee);
        case PlainTransfer(value) => ok := false;
        case ForcedEther(value) =>
          balance, forced := balance + value, forced + value;
          ok := true;
        case TransferOwnership(sender, newOwner) =>
          ok := sender == owner && newOwner != ZERO_ADDRESS;
          if ok { owner := newOwner; }
        case RenounceOwnership(sender) =>
          ok := sender == owner;
          if ok { owner := ZERO_ADDRESS; }
      }
    }

    method PerformAll(actions: seq<Action>)
      modifies this
      ensures State() == ExecAll(old(State()), actions)
      decreases actions, 1
    {
      var i := 0;
      assert actions[0..] == actions;
      while i < |actions|
        invariant 0 <= i <= |actions|
        invariant ExecAll(State(), actions[i..]) == ExecAll(old(State()), actions)
      {
        var _ := Perform(actions[i]);
        assert actions[i..][1..] == actions[i+1..];
        i := i + 1;
      }
    }
  }
}
