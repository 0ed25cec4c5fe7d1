/**
 * Lightning deposits (src/services/strike.service.ts): creating a deposit against a Strike
 * invoice, and reconciling a user's unpaid deposits with the invoice states Strike reports,
 * which marks them paid and credits their amounts to the user's balance.
 *
 * Strike is a parameter: `InvoiceStates` is what `GET /invoices/{id}` answers for each invoice
 * during one call (a missing entry is a failed request), and the replies to invoice creation
 * and quoting are `Option`s.
 */
module StrikeService {
  import opened Wrappers
  import opened Ledger
  import SupabaseService

  /** `StrikeInvoice["state"]`. */
  datatype InvoiceState = Unpaid | Pending | Paid | Cancelled

  /** The state Strike reports for each invoice id; an id that is absent makes the request throw. */
  type InvoiceStates = map<string, InvoiceState>

  datatype StrikeError = Store(error: DbError) | InvoiceLookupFailed(strike_id: string) | InvoiceRequestFailed

  predicate PaidAtStrike(states: InvoiceStates, d: LightningDeposit)
  {
    d.strike_id in states && states[d.strike_id] == Paid
  }

  predicate IsPending(d: LightningDeposit, user_id: string)
  {
    d.user_id == user_id && !d.paid
  }

  /** The user's unpaid deposits, in table order: what the reconciliation works through. */
  function PendingOf(ds: seq<LightningDeposit>, user_id: string): (r: seq<LightningDeposit>)
    ensures forall d :: d in r <==> d in ds && IsPending(d, user_id)
    ensures |r| <= |ds|
  {
    if ds == [] then []
    else (if IsPending(ds[0], user_id) then [ds[0]] else []) + PendingOf(ds[1..], user_id)
  }

  /** `.filter(({ paid }) => !paid)`. */
  function Unpaid(ds: seq<LightningDeposit>): seq<LightningDeposit>
  {
    if ds == [] then [] else (if !ds[0].paid then [ds[0]] else []) + Unpaid(ds[1..])
  }

  lemma {:induction false} UnpaidOfConcat(a: seq<LightningDeposit>, b: seq<LightningDeposit>)
    ensures Unpaid(a + b) == Unpaid(a) + Unpaid(b)
  {
    if a != [] {
      assert (a + b)[1..] == a[1..] + b;
      UnpaidOfConcat(a[1..], b);
    } else {
      assert a + b == b;
    }
  }

  /** Listing the user's deposits and keeping the unpaid ones gives `PendingOf`. */
  lemma {:induction false} UnpaidOfListIsPending(ds: seq<LightningDeposit>, user_id: string)
    ensures Unpaid(DepositsWhere(ds, DepositUserColumn, user_id)) == PendingOf(ds, user_id)
  {
    if ds != [] {
      UnpaidOfListIsPending(ds[1..], user_id);
      var head := if DepositMatches(ds[0], DepositUserColumn, user_id) then [ds[0]] else [];
      UnpaidOfConcat(head, DepositsWhere(ds[1..], DepositUserColumn, user_id));
      assert Unpaid(head) == if IsPending(ds[0], user_id) then [ds[0]] else [];
    }
  }

  /** What one deposit's reconciliation does to its row. */
  function Reconcile(d: LightningDeposit, user_id: string, states: InvoiceStates): LightningDeposit
  {
    if IsPending(d, user_id) && PaidAtStrike(states, d) then d.(paid := true) else d
  }

  /** The deposits table after reconciling `user_id`: each pending deposit Strike reports PAID becomes paid. */
  function Reconciled(ds: seq<LightningDeposit>, user_id: string, states: InvoiceStates): (r: seq<LightningDeposit>)
    ensures |r| == |ds|
  {
    if ds == [] then [] else [Reconcile(ds[0], user_id, states)] + Reconciled(ds[1..], user_id, states)
  }

  /** Reconciliation works row by row: row `i` of the result is row `i` reconciled. */
  lemma {:induction false} ReconciledAt(ds: seq<LightningDeposit>, user_id: string, states: InvoiceStates, i: nat)
    requires i < |ds|
    ensures Reconciled(ds, user_id, states)[i] == Reconcile(ds[i], user_id, states)
  {
    if i > 0 {
      ReconciledAt(ds[1..], user_id, states, i - 1);
    }
  }

  /** The sum credited for `pending`: the amounts of the deposits Strike reports PAID. */
  function CreditOf(pending: seq<LightningDeposit>, states: InvoiceStates): int
  {
    if pending == [] then 0
    else CreditOf(pending[..|pending| - 1], states)
         + (if PaidAtStrike(states, pending[|pending| - 1]) then pending[|pending| - 1].amount_sats else 0)
  }

  /** The ids of the deposits in `pending` that Strike reports PAID. */
  function PaidIds(pending: seq<LightningDeposit>, states: InvoiceStates): (r: set<string>)
    ensures forall id :: id in r ==> exists d :: d in pending && d.id == id && PaidAtStrike(states, d)
  {
    if pending == [] then {}
    else
      var last := pending[|pending| - 1];
      PaidIds(pending[..|pending| - 1], states) + (if PaidAtStrike(states, last) then {last.id} else {})
  }

  /** The deposits table with the rows whose id is in `ids` marked paid. */
  function MarkPaid(ds: seq<LightningDeposit>, ids: set<string>): (r: seq<LightningDeposit>)
    ensures |r| == |ds|
    ensures forall i :: 0 <= i < |ds| ==> r[i] == if ds[i].id in ids then ds[i].(paid := true) else ds[i]
  {
    if ds == [] then [] else [if ds[0].id in ids then ds[0].(paid := true) else ds[0]] + MarkPaid(ds[1..], ids)
  }

  /** The list `check_lightning_deposit_statuses` returns: each pending deposit as updated. */
  function Settled(pending: seq<LightningDeposit>, states: InvoiceStates): (r: seq<LightningDeposit>)
    ensures |r| == |pending|
    ensures forall i :: 0 <= i < |pending| ==> r[i] == pending[i].(paid := PaidAtStrike(states, pending[i]))
  {
    if pending == [] then []
    else Settled(pending[..|pending| - 1], states)
         + [pending[|pending| - 1].(paid := PaidAtStrike(states, pending[|pending| - 1]))]
  }

  /** The amount of the user's paid deposits. */
  function PaidSum(ds: seq<LightningDeposit>, user_id: string): int
  {
    if ds == [] then 0
    else (if ds[0].user_id == user_id && ds[0].paid then ds[0].amount_sats else 0) + PaidSum(ds[1..], user_id)
  }

  lemma {:induction false} CreditOfConcat(a: seq<LightningDeposit>, b: seq<LightningDeposit>, states: InvoiceStates)
    ensures CreditOf(a + b, states) == CreditOf(a, states) + CreditOf(b, states)
    decreases |b|
  {
    if b != [] {
      assert (a + b)[..|a + b| - 1] == a + b[..|b| - 1];
      CreditOfConcat(a, b[..|b| - 1], states);
    } else {
      assert a + b == a;
    }
  }

  /** A deposit row in the pending list is in the table, unpaid and the user's. */
  lemma PendingIdsUnique(ds: seq<LightningDeposit>, user_id: string)
    requires UniqueDepositIds(ds)
    ensures UniqueDepositIds(PendingOf(ds, user_id))
    decreases |ds|
  {
    if ds != [] {
      PendingIdsUnique(ds[1..], user_id);
      var rest := PendingOf(ds[1..], user_id);
      forall j | 0 <= j < |rest|
        ensures rest[j].id != ds[0].id
      {
        assert rest[j] in ds[1..];
        var k :| 0 <= k < |ds[1..]| && ds[1..][k] == rest[j];
        assert ds[k + 1] == rest[j];
      }
    }
  }

  /**
   * Conservation: reconciling `user_id` adds to the user's paid total exactly the credit it grants,
   * and leaves every other user's paid total alone.
   */
  lemma {:induction false} ReconciledPaidSum(ds: seq<LightningDeposit>, user_id: string, states: InvoiceStates,
                                             other: string)
    ensures PaidSum(Reconciled(ds, user_id, states), user_id)
            == PaidSum(ds, user_id) + CreditOf(PendingOf(ds, user_id), states)
    ensures other != user_id ==> PaidSum(Reconciled(ds, user_id, states), other) == PaidSum(ds, other)
  {
    if ds != [] {
      ReconciledPaidSum(ds[1..], user_id, states, other);
      var r := Reconciled(ds, user_id, states);
      assert r[1..] == Reconciled(ds[1..], user_id, states);
      var head := if IsPending(ds[0], user_id) then [ds[0]] else [];
      CreditOfConcat(head, PendingOf(ds[1..], user_id), states);
      assert CreditOf(head, states) == if head != [] && PaidAtStrike(states, ds[0]) then ds[0].amount_sats else 0 by {
        if head != [] {
          assert head[..0] == [];
        }
      }
    }
  }

  /** A second reconciliation with the same invoice states changes nothing and credits nothing. */
  lemma {:induction false} ReconcileIdempotent(ds: seq<LightningDeposit>, user_id: string, states: InvoiceStates)
    ensures Reconciled(Reconciled(ds, user_id, states), user_id, states) == Reconciled(ds, user_id, states)
    ensures CreditOf(PendingOf(Reconciled(ds, user_id, states), user_id), states) == 0
  {
    var once := Reconciled(ds, user_id, states);
    var twice := Reconciled(once, user_id, states);
    assert |twice| == |once|;
    forall i | 0 <= i < |once|
      ensures twice[i] == once[i]
    {
      ReconciledAt(ds, user_id, states, i);
      ReconciledAt(once, user_id, states, i);
    }
    forall i | 0 <= i < |once|
      ensures !(IsPending(once[i], user_id) && PaidAtStrike(states, once[i]))
    {
      ReconciledAt(ds, user_id, states, i);
    }
    NothingLeftToCredit(once, user_id, states);
  }

  /** After reconciliation no pending deposit of the user is reported PAID. */
  lemma {:induction false} NothingLeftToCredit(once: seq<LightningDeposit>, user_id: string, states: InvoiceStates)
    requires forall i :: 0 <= i < |once| ==> !(IsPending(once[i], user_id) && PaidAtStrike(states, once[i]))
    ensures CreditOf(PendingOf(once, user_id), states) == 0
  {
    NoPaidNoCredit(PendingOf(once, user_id), states);
  }

  lemma {:induction false} NoPaidNoCredit(pending: seq<LightningDeposit>, states: InvoiceStates)
    requires forall d :: d in pending ==> !PaidAtStrike(states, d)
    ensures CreditOf(pending, states) == 0
    decreases |pending|
  {
    if pending != [] {
      assert pending[|pending| - 1] in pending;
      NoPaidNoCredit(pending[..|pending| - 1], states);
    }
  }

  /** Reconciliation keeps, for every user, balance minus the amount of paid deposits. */
  lemma ReconciliationKeepsBalanceMinusPaid(us: seq<User>, ds: seq<LightningDeposit>, user_id: string,
                                            states: InvoiceStates, who: string)
    requires forall i :: 0 <= i < |ds| ==> HasUser(us, ds[i].user_id)
    ensures var credit := CreditOf(PendingOf(ds, user_id), states);
            BalanceOf(Credit(us, user_id, credit), who) - PaidSum(Reconciled(ds, user_id, states), who)
            == BalanceOf(us, who) - PaidSum(ds, who)
  {
    var credit := CreditOf(PendingOf(ds, user_id), states);
    ReconciledPaidSum(ds, user_id, states, who);
    CreditMovesOneBalance(us, user_id, credit, who);
    if !HasUser(us, user_id) {
      assert forall d :: d in ds ==> d.user_id != user_id;
      NoPaidNoCredit(PendingOf(ds, user_id), states);
    }
  }

  /** Extending the processed prefix by one deposit. */
  lemma PrefixStep(pending: seq<LightningDeposit>, i: nat, states: InvoiceStates)
    requires i < |pending|
    ensures CreditOf(pending[..i + 1], states)
            == CreditOf(pending[..i], states) + (if PaidAtStrike(states, pending[i]) then pending[i].amount_sats else 0)
    ensures PaidIds(pending[..i + 1], states)
            == PaidIds(pending[..i], states) + (if PaidAtStrike(states, pending[i]) then {pending[i].id} else {})
    ensures Settled(pending[..i + 1], states)
            == Settled(pending[..i], states) + [pending[i].(paid := PaidAtStrike(states, pending[i]))]
  {
    assert pending[..i + 1][..i] == pending[..i];
  }

  /** Marking one more id paid. */
  lemma MarkOneMore(ds: seq<LightningDeposit>, ids: set<string>, id: string)
    ensures SetPaid(MarkPaid(ds, ids), id, true) == MarkPaid(ds, ids + {id})
  {
    var a := SetPaid(MarkPaid(ds, ids), id, true);
    var b := MarkPaid(ds, ids + {id});
    assert |a| == |b|;
    forall i | 0 <= i < |ds|
      ensures a[i] == b[i]
    {
    }
  }

  /** Writing `paid: false` to a row that is unpaid and not yet marked changes nothing. */
  lemma UnpaidWriteIsNoop(ds: seq<LightningDeposit>, ids: set<string>, d: LightningDeposit)
    requires UniqueDepositIds(ds) && d in ds && !d.paid && d.id !in ids
    ensures SetPaid(MarkPaid(ds, ids), d.id, false) == MarkPaid(ds, ids)
  {
    var m := MarkPaid(ds, ids);
    var a := SetPaid(m, d.id, false);
    assert |a| == |m|;
    forall i | 0 <= i < |ds|
      ensures a[i] == m[i]
    {
      if ds[i].id == d.id {
        var k :| 0 <= k < |ds| && ds[k] == d;
        assert k == i;
      }
    }
  }

  /** Marking the ids of the paid pending deposits is the reconciled table. */
  lemma MarkPaidIsReconciled(ds: seq<LightningDeposit>, user_id: string, states: InvoiceStates)
    requires UniqueDepositIds(ds)
    ensures MarkPaid(ds, PaidIds(PendingOf(ds, user_id), states)) == Reconciled(ds, user_id, states)
  {
    var pending := PendingOf(ds, user_id);
    var ids := PaidIds(pending, states);
    var a := MarkPaid(ds, ids);
    var b := Reconciled(ds, user_id, states);
    assert |a| == |b|;
    forall i | 0 <= i < |ds|
      ensures a[i] == b[i]
    {
      ReconciledAt(ds, user_id, states, i);
      if ds[i].id in ids {
        var d :| d in pending && d.id == ds[i].id && PaidAtStrike(states, d);
        var k :| 0 <= k < |ds| && ds[k] == d;
        assert k == i;
      } else if IsPending(ds[i], user_id) && PaidAtStrike(states, ds[i]) {
        assert ds[i] in pending;
        PaidIdsComplete(pending, states, ds[i]);
      }
    }
  }

  lemma {:induction false} PaidIdsComplete(pending: seq<LightningDeposit>, states: InvoiceStates, d: LightningDeposit)
    requires d in pending && PaidAtStrike(states, d)
    ensures d.id in PaidIds(pending, states)
    decreases |pending|
  {
    if d != pending[|pending| - 1] {
      assert pending == pending[..|pending| - 1] + [pending[|pending| - 1]];
      assert d in pending[..|pending| - 1];
      PaidIdsComplete(pending[..|pending| - 1], states, d);
    }
  }

  /** The ids already marked are those of earlier pending deposits, so a later one is not among them. */
  lemma NotYetMarked(pending: seq<LightningDeposit>, i: nat, states: InvoiceStates)
    requires UniqueDepositIds(pending) && i < |pending|
    ensures pending[i].id !in PaidIds(pending[..i], states)
  {
    forall d | d in pending[..i]
      ensures d.id != pending[i].id
    {
      var k :| 0 <= k < i && pending[..i][k] == d;
      assert pending[k] == d;
    }
  }

  /**
   * The callback `check_lightning_deposit_statuses` maps over an unpaid deposit `d`: asks Strike
   * for the invoice state, writes `paid := (state == PAID)` and, when the row came back paid,
   * credits the listed `amount_sats` to the user.
   */
  method ReconcileDeposit(db: Database, user_id: string, d: LightningDeposit, states: InvoiceStates)
    returns (r: Result<LightningDeposit, StrikeError>)
    requires db.Valid() && d in db.deposits && d.user_id == user_id
    modifies db
    ensures db.Valid()
    ensures db.payments == old(db.payments)
    ensures r == if d.strike_id in states then Ok(d.(paid := PaidAtStrike(states, d))) else Err(InvoiceLookupFailed(d.strike_id))
    ensures db.deposits == if d.strike_id in states then SetPaid(old(db.deposits), d.id, PaidAtStrike(states, d)) else old(db.deposits)
    ensures db.users == if PaidAtStrike(states, d) then Credit(old(db.users), user_id, d.amount_sats) else old(db.users)
  {
    if d.strike_id !in states {
      return Err(InvoiceLookupFailed(d.strike_id));
    }
    var state := states[d.strike_id];
    var paid := state == Paid;
    assert HasUser(db.users, user_id) by {
      assert db.deposits[IndexIn(db.deposits, d)] == d;
    }
    var updated := SupabaseService.UpdateUserLightningDepositPaid(db, d.id, paid);
    assert updated == Ok(d.(paid := paid));
    if updated.value.paid {
      var credited := SupabaseService.UpdateUserBalanceSats(db, user_id, d.amount_sats);
    }
    r := Ok(updated.value);
  }

  /** After the callbacks on `pending[..i]`, the deposits table is `ds0` with their paid ids marked. */
  ghost predicate DepositsTrack(deps: seq<LightningDeposit>, ds0: seq<LightningDeposit>,
                                pending: seq<LightningDeposit>, i: nat, states: InvoiceStates)
    requires i <= |pending|
  {
    deps == MarkPaid(ds0, PaidIds(pending[..i], states))
  }

  /** After the callbacks on `pending[..i]`, the user in `us0` has been credited their paid amounts. */
  ghost predicate UsersTrack(users: seq<User>, us0: seq<User>, user_id: string,
                             pending: seq<LightningDeposit>, i: nat, states: InvoiceStates)
    requires i <= |pending|
  {
    users == Credit(us0, user_id, CreditOf(pending[..i], states))
  }

  /**
   * How one deposit's callback extends the loop's running deposits table: `deps` before it,
   * `deps2` after it, as `ReconcileDeposit` leaves them.
   */
  lemma DepositsStep(ds0: seq<LightningDeposit>, pending: seq<LightningDeposit>, i: nat, states: InvoiceStates,
                     deps: seq<LightningDeposit>, deps2: seq<LightningDeposit>)
    requires UniqueDepositIds(ds0) && UniqueDepositIds(pending) && i < |pending|
    requires pending[i] in ds0 && !pending[i].paid
    requires DepositsTrack(deps, ds0, pending, i, states)
    requires deps2 == if pending[i].strike_id in states then SetPaid(deps, pending[i].id, PaidAtStrike(states, pending[i])) else deps
    ensures DepositsTrack(deps2, ds0, pending, i + 1, states)
  {
    var d := pending[i];
    var ids := PaidIds(pending[..i], states);
    PrefixStep(pending, i, states);
    NotYetMarked(pending, i, states);
    if PaidAtStrike(states, d) {
      MarkOneMore(ds0, ids, d.id);
    } else {
      assert PaidIds(pending[..i + 1], states) == ids;
      if d.strike_id in states {
        UnpaidWriteIsNoop(ds0, ids, d);
      }
    }
  }

  /** How one deposit's callback extends the loop's running users table. */
  lemma UsersStep(us0: seq<User>, pending: seq<LightningDeposit>, i: nat, user_id: string, states: InvoiceStates,
                  users: seq<User>, users2: seq<User>)
    requires i < |pending|
    requires UsersTrack(users, us0, user_id, pending, i, states)
    requires users2 == if PaidAtStrike(states, pending[i]) then Credit(users, user_id, pending[i].amount_sats) else users
    ensures UsersTrack(users2, us0, user_id, pending, i + 1, states)
  {
    var credit := CreditOf(pending[..i], states);
    PrefixStep(pending, i, states);
    if PaidAtStrike(states, pending[i]) {
      CreditsAdd(us0, user_id, credit, pending[i].amount_sats);
      assert CreditOf(pending[..i + 1], states) == credit + pending[i].amount_sats;
    } else {
      assert CreditOf(pending[..i + 1], states) == credit;
    }
  }

  /** While no lookup has failed, `updated` lists the rows written for `pending[..i]`. */
  ghost predicate SettledTrack(updated: seq<LightningDeposit>, pending: seq<LightningDeposit>, i: nat, states: InvoiceStates)
    requires i <= |pending|
  {
    updated == Settled(pending[..i], states)
  }

  lemma SettledStep(updated: seq<LightningDeposit>, pending: seq<LightningDeposit>, i: nat, states: InvoiceStates,
                    row: LightningDeposit)
    requires i < |pending| && SettledTrack(updated, pending, i, states)
    requires row == pending[i].(paid := PaidAtStrike(states, pending[i]))
    ensures SettledTrack(updated + [row], pending, i + 1, states)
  {
    PrefixStep(pending, i, states);
  }

  /** Strike answered for every deposit in `ps`, checked from the end. */
  predicate AllFound(ps: seq<LightningDeposit>, states: InvoiceStates)
  {
    ps == [] || (AllFound(ps[..|ps| - 1], states) && ps[|ps| - 1].strike_id in states)
  }

  /** `failed` holds the first failed lookup among `pending[..i]`, if any. */
  ghost predicate FoundTrack(failed: Option<string>, pending: seq<LightningDeposit>, i: nat, states: InvoiceStates)
    requires i <= |pending|
  {
    failed.None? <==> AllFound(pending[..i], states)
  }

  lemma FoundStep(failed: Option<string>, pending: seq<LightningDeposit>, i: nat, states: InvoiceStates,
                  ok: bool, failed2: Option<string>)
    requires i < |pending| && FoundTrack(failed, pending, i, states)
    requires ok <==> pending[i].strike_id in states
    requires failed2 == if ok || failed.Some? then failed else Some(pending[i].strike_id)
    ensures FoundTrack(failed2, pending, i + 1, states)
  {
    assert pending[..i + 1][..i] == pending[..i];
  }

  lemma {:induction false} AllFoundMeans(ps: seq<LightningDeposit>, states: InvoiceStates)
    ensures AllFound(ps, states) <==> forall d :: d in ps ==> d.strike_id in states
  {
    if ps != [] {
      var init := ps[..|ps| - 1];
      AllFoundMeans(init, states);
      assert ps == init + [ps[|ps| - 1]];
      assert forall d :: d in ps <==> d in init || d == ps[|ps| - 1];
    }
  }

  /** A deposit not yet processed still sits unchanged in the table. */
  lemma PendingStillInTable(ds0: seq<LightningDeposit>, pending: seq<LightningDeposit>, i: nat, states: InvoiceStates,
                            deps: seq<LightningDeposit>)
    requires UniqueDepositIds(pending) && i < |pending| && pending[i] in ds0
    requires DepositsTrack(deps, ds0, pending, i, states)
    ensures pending[i] in deps
  {
    NotYetMarked(pending, i, states);
    var k :| 0 <= k < |ds0| && ds0[k] == pending[i];
    assert deps[k] == pending[i];
  }

  lemma CreditByZero(us: seq<User>, id: string)
    ensures Credit(us, id, 0) == us
  {
    var r := Credit(us, id, 0);
    assert |r| == |us|;
    forall i | 0 <= i < |us|
      ensures r[i] == us[i]
    {
    }
  }

  /**
   * The callback on `pending[i]`, seen from the loop that runs the callbacks in order: it moves
   * the tracked tables from `pending[..i]` to `pending[..i + 1]`, keeps the first failed lookup
   * in `failed`, and appends the written row to `updated`.
   */
  method ReconcileNext(db: Database, user_id: string, pending: seq<LightningDeposit>, i: nat, states: InvoiceStates,
                       failed: Option<string>, updated: seq<LightningDeposit>,
                       ghost ds0: seq<LightningDeposit>, ghost us0: seq<User>)
    returns (failed2: Option<string>, updated2: seq<LightningDeposit>)
    requires db.Valid() && UniqueDepositIds(ds0) && UniqueDepositIds(pending) && i < |pending|
    requires pending[i] in ds0 && IsPending(pending[i], user_id)
    requires DepositsTrack(db.deposits, ds0, pending, i, states)
    requires UsersTrack(db.users, us0, user_id, pending, i, states)
    requires FoundTrack(failed, pending, i, states)
    requires failed.None? ==> SettledTrack(updated, pending, i, states)
    modifies db
    ensures db.Valid() && db.payments == old(db.payments)
    ensures DepositsTrack(db.deposits, ds0, pending, i + 1, states)
    ensures UsersTrack(db.users, us0, user_id, pending, i + 1, states)
    ensures FoundTrack(failed2, pending, i + 1, states)
    ensures failed2.None? ==> SettledTrack(updated2, pending, i + 1, states)
  {
    ghost var deps := db.deposits;
    ghost var users := db.users;
    PendingStillInTable(ds0, pending, i, states, deps);
    var one := ReconcileDeposit(db, user_id, pending[i], states);
    DepositsStep(ds0, pending, i, states, deps, db.deposits);
    UsersStep(us0, pending, i, user_id, states, users, db.users);
    failed2, updated2 := failed, updated;
    if one.Err? {
      if failed.None? {
        failed2 := Some(pending[i].strike_id);
      }
    } else {
      if failed.None? {
        SettledStep(updated, pending, i, states, one.value);
      }
      updated2 := updated + [one.value];
    }
    FoundStep(failed, pending, i, states, one.Ok?, failed2);
  }

  /**
   * `Promise.all(pending.map(...))` in `check_lightning_deposit_statuses`: the callback on each
   * deposit of `pending`, one after the other in list order. A failed Strike request is
   * reported once all callbacks are done; the others still write their rows.
   */
  method ReconcileAll(db: Database, user_id: string, pending: seq<LightningDeposit>, states: InvoiceStates)
    returns (r: Result<seq<LightningDeposit>, StrikeError>)
    requires db.Valid() && UniqueDepositIds(pending)
    requires forall d :: d in pending ==> d in db.deposits && IsPending(d, user_id)
    modifies db
    ensures db.Valid()
    ensures db.deposits == MarkPaid(old(db.deposits), PaidIds(pending, states))
    ensures db.users == Credit(old(db.users), user_id, CreditOf(pending, states))
    ensures db.payments == old(db.payments)
    ensures r.Ok? <==> AllFound(pending, states)
    ensures r.Ok? ==> r.value == Settled(pending, states)
  {
    ghost var ds0 := db.deposits;
    ghost var us0 := db.users;
    CreditByZero(us0, user_id);
    var updated: seq<LightningDeposit> := [];
    var failed: Option<string> := None;
    var i := 0;
    while i < |pending|
      invariant 0 <= i <= |pending|
      invariant db.Valid() && ds0 == old(db.deposits) && db.payments == old(db.payments)
      invariant DepositsTrack(db.deposits, ds0, pending, i, states)
      invariant UsersTrack(db.users, us0, user_id, pending, i, states)
      invariant FoundTrack(failed, pending, i, states)
      invariant failed.None? ==> SettledTrack(updated, pending, i, states)
    {
      assert pending[i] in pending;
      failed, updated := ReconcileNext(db, user_id, pending, i, states, failed, updated, ds0, us0);
      i := i + 1;
    }
    assert pending[..i] == pending;
    if failed.Some? {
      return Err(InvoiceLookupFailed(failed.value));
    }
    r := Ok(updated);
  }

  /**
   * `check_lightning_deposit_statuses`: lists the user's deposits, keeps the unpaid ones and
   * reconciles each with Strike. The deposits table ends up `Reconciled`, and the user is
   * credited the amounts of exactly the deposits that became paid.
   */
  method CheckLightningDepositStatuses(db: Database, user_id: string, states: InvoiceStates)
    returns (r: Result<seq<LightningDeposit>, StrikeError>)
    requires db.Valid()
    modifies db
    ensures db.Valid()
    ensures db.deposits == Reconciled(old(db.deposits), user_id, states)
    ensures db.users == Credit(old(db.users), user_id, CreditOf(PendingOf(old(db.deposits), user_id), states))
    ensures db.payments == old(db.payments)
    ensures r.Ok? <==> forall d :: d in PendingOf(old(db.deposits), user_id) ==> d.strike_id in states
    ensures r.Ok? ==> r.value == Settled(PendingOf(old(db.deposits), user_id), states)
  {
    ghost var ds0 := db.deposits;
    var lightning_deposits := SupabaseService.ListUserLightningDeposits(db, user_id);
    var pending := Unpaid(lightning_deposits);
    UnpaidOfListIsPending(ds0, user_id);
    PendingIdsUnique(ds0, user_id);
    MarkPaidIsReconciled(ds0, user_id, states);
    AllFoundMeans(pending, states);
    r := ReconcileAll(db, user_id, pending, states);
  }

  /**
   * The balance writes of the callbacks `Promise.all` runs in `check_lightning_deposit_statuses`
   * on the schedule where every crediting callback has done the read of `update_user_balance_sats`
   * before any of them writes: each write stores the balance `read` plus its own amount.
   */
  function CreditsAfterOneRead(us: seq<User>, user_id: string, read: int, amounts: seq<int>): seq<User>
  {
    if amounts == [] then us
    else
      var last := |amounts| - 1;
      UpdateUsers(CreditsAfterOneRead(us, user_id, read, amounts[..last]), UserIdColumn, user_id, SetBalance(read + amounts[last]))
  }

  /** On that schedule every write keeps the user in the table. */
  lemma {:induction false} CreditsAfterOneReadKeepUser(us: seq<User>, user_id: string, read: int, amounts: seq<int>)
    requires HasUser(us, user_id)
    ensures HasUser(CreditsAfterOneRead(us, user_id, read, amounts), user_id)
  {
    if amounts != [] {
      var last := |amounts| - 1;
      CreditsAfterOneReadKeepUser(us, user_id, read, amounts[..last]);
      UpdateKeepsUser(CreditsAfterOneRead(us, user_id, read, amounts[..last]), user_id, read + amounts[last]);
    }
  }

  /** On that schedule only the last write counts: every earlier credit is lost. */
  lemma InterleavedCreditsKeepOnlyTheLast(us: seq<User>, user_id: string, read: int, amounts: seq<int>)
    requires HasUser(us, user_id) && amounts != []
    ensures BalanceOf(CreditsAfterOneRead(us, user_id, read, amounts), user_id) == read + amounts[|amounts| - 1]
  {
    var last := |amounts| - 1;
    CreditsAfterOneReadKeepUser(us, user_id, read, amounts[..last]);
    UpdatedBalance(CreditsAfterOneRead(us, user_id, read, amounts[..last]), user_id, read + amounts[last]);
  }

  /**
   * Two unpaid deposits of 100 and 200 sats, both PAID, on a balance of 0: when both callbacks
   * read the balance first, it ends at 200, where the sequential credits of `ReconcileAll` give 300.
   */
  lemma LostCreditExample()
    ensures BalanceOf(CreditsAfterOneRead([User("u", None, 0)], "u", 0, [100, 200]), "u") == 200
    ensures BalanceOf(Credit([User("u", None, 0)], "u", 100 + 200), "u") == 300
  {
    var us := [User("u", None, 0)];
    assert us[0].id == "u";
    InterleavedCreditsKeepOnlyTheLast(us, "u", 0, [100, 200]);
    CreditMovesOneBalance(us, "u", 300, "u");
  }

  /** The position of a row in the table (a proof helper). */
  function IndexIn(ds: seq<LightningDeposit>, d: LightningDeposit): (k: nat)
    requires d in ds
    ensures k < |ds| && ds[k] == d
  {
    if ds[0] == d then 0 else 1 + IndexIn(ds[1..], d)
  }

  /** The deposit and the invoice state `check_lightning_deposit_status` returns. */
  datatype DepositStatus = DepositStatus(deposit: LightningDeposit, state: InvoiceState)

  /** Reconciliation changes no `lnurl`, so the deposit found by `lnurl` is found again, reconciled. */
  lemma {:induction false} ReconciledByLnurl(ds: seq<LightningDeposit>, user_id: string, states: InvoiceStates,
                                             lnurl: string)
    ensures DepositsWhere(Reconciled(ds, user_id, states), LnurlColumn, lnurl)
            == Reconciled(DepositsWhere(ds, LnurlColumn, lnurl), user_id, states)
  {
    if ds != [] {
      ReconciledByLnurl(ds[1..], user_id, states, lnurl);
      var r := Reconciled(ds, user_id, states);
      assert r[1..] == Reconciled(ds[1..], user_id, states);
      var head := if DepositMatches(ds[0], LnurlColumn, lnurl) then [ds[0]] else [];
      ReconciledConcat(head, DepositsWhere(ds[1..], LnurlColumn, lnurl), user_id, states);
    }
  }

  /** The deposit found by `lnurl` is found again by `lnurl` after reconciling its owner, now reconciled. */
  lemma FoundAgainByLnurl(ds: seq<LightningDeposit>, lnurl: string, d: LightningDeposit, states: InvoiceStates)
    requires |DepositsWhere(ds, LnurlColumn, lnurl)| == 1 && DepositsWhere(ds, LnurlColumn, lnurl)[0] == d
    ensures |DepositsWhere(Reconciled(ds, d.user_id, states), LnurlColumn, lnurl)| == 1
    ensures DepositsWhere(Reconciled(ds, d.user_id, states), LnurlColumn, lnurl)[0]
            == d.(paid := d.paid || PaidAtStrike(states, d))
  {
    ReconciledByLnurl(ds, d.user_id, states, lnurl);
    ReconciledAt(DepositsWhere(ds, LnurlColumn, lnurl), d.user_id, states, 0);
  }

  lemma ReconciledConcat(a: seq<LightningDeposit>, b: seq<LightningDeposit>, user_id: string, states: InvoiceStates)
    ensures Reconciled(a + b, user_id, states) == Reconciled(a, user_id, states) + Reconciled(b, user_id, states)
  {
    var l := Reconciled(a + b, user_id, states);
    var r := Reconciled(a, user_id, states) + Reconciled(b, user_id, states);
    assert |l| == |r|;
    forall i | 0 <= i < |l|
      ensures l[i] == r[i]
    {
      ReconciledAt(a + b, user_id, states, i);
      if i < |a| {
        assert (a + b)[i] == a[i];
        ReconciledAt(a, user_id, states, i);
      } else {
        assert (a + b)[i] == b[i - |a|];
        ReconciledAt(b, user_id, states, i - |a|);
      }
    }
  }

  /**
   * The second half of `check_lightning_deposit_status`, once the deposit `d` found by `lnurl`
   * has an invoice state: reconcile its owner when PAID, then re-read the deposit by `lnurl`.
   * Reconciliation changes no `lnurl`, so the re-read always finds the deposit again; the call
   * fails only when reconciling the owner's deposits does.
   */
  method RefreshDeposit(db: Database, lnurl: string, d: LightningDeposit, states: InvoiceStates)
    returns (r: Result<LightningDeposit, StrikeError>)
    requires db.Valid() && SupabaseService.GetUserLightningDeposit(db, lnurl) == Ok(d) && d.strike_id in states
    modifies db
    ensures db.Valid()
    ensures db.payments == old(db.payments)
    ensures r.Ok? <==> !PaidAtStrike(states, d) || forall p :: p in PendingOf(old(db.deposits), d.user_id) ==> p.strike_id in states
    ensures r.Ok? ==> r.value == d.(paid := d.paid || PaidAtStrike(states, d))
    ensures PaidAtStrike(states, d) ==>
      && db.deposits == Reconciled(old(db.deposits), d.user_id, states)
      && db.users == Credit(old(db.users), d.user_id, CreditOf(PendingOf(old(db.deposits), d.user_id), states))
    ensures !PaidAtStrike(states, d) ==> db.deposits == old(db.deposits) && db.users == old(db.users)
  {
    ghost var ds0 := db.deposits;
    if states[d.strike_id] == Paid {
      var reconciled := CheckLightningDepositStatuses(db, d.user_id, states);
      if reconciled.Err? {
        return Err(reconciled.error);
      }
      FoundAgainByLnurl(ds0, lnurl, d, states);
    }
    var again := SupabaseService.GetUserLightningDeposit(db, lnurl);
    if again.Err? {
      assert false;
    }
    r := Ok(again.value);
  }

  /**
   * `check_lightning_deposit_status(lnurl)`: looks up the deposit and its invoice state, reconciles
   * the owner's deposits only when that state is PAID, and returns the deposit as re-read with
   * the state.
   */
  method CheckLightningDepositStatus(db: Database, lnurl: string, states: InvoiceStates)
    returns (r: Result<DepositStatus, StrikeError>)
    requires db.Valid()
    modifies db
    ensures db.Valid()
    ensures db.payments == old(db.payments)
    ensures old(SupabaseService.GetUserLightningDeposit(db, lnurl)).Err? ==>
      r == Err(Store(old(SupabaseService.GetUserLightningDeposit(db, lnurl)).error))
    ensures old(SupabaseService.GetUserLightningDeposit(db, lnurl)).Ok? ==>
      var d := old(SupabaseService.GetUserLightningDeposit(db, lnurl)).value;
      && (d.strike_id !in states ==> r == Err(InvoiceLookupFailed(d.strike_id)))
      && (r.Ok? <==> d.strike_id in states &&
                     (!PaidAtStrike(states, d) || forall p :: p in PendingOf(old(db.deposits), d.user_id) ==> p.strike_id in states))
      && (r.Ok? ==> d.strike_id in states && r.value == DepositStatus(d.(paid := d.paid || PaidAtStrike(states, d)), states[d.strike_id]))
      && (PaidAtStrike(states, d) ==>
            && db.deposits == Reconciled(old(db.deposits), d.user_id, states)
            && db.users == Credit(old(db.users), d.user_id, CreditOf(PendingOf(old(db.deposits), d.user_id), states)))
    ensures !(old(SupabaseService.GetUserLightningDeposit(db, lnurl)).Ok? &&
              PaidAtStrike(states, old(SupabaseService.GetUserLightningDeposit(db, lnurl)).value)) ==>
      db.deposits == old(db.deposits) && db.users == old(db.users)
  {
    var found := SupabaseService.GetUserLightningDeposit(db, lnurl);
    if found.Err? {
      return Err(Store(found.error));
    }
    var d := found.value;
    if d.strike_id !in states {
      return Err(InvoiceLookupFailed(d.strike_id));
    }
    var state := states[d.strike_id];
    var updated := RefreshDeposit(db, lnurl, d, states);
    if updated.Err? {
      return Err(updated.error);
    }
    r := Ok(DepositStatus(updated.value, state));
  }

  /** An invoice amount: `{ amount, currency }`. */
  datatype InvoiceAmount = InvoiceAmount(amount: real, currency: string)

  /** The amount `generate_lightning_deposit` asks Strike to invoice: the satoshis as BTC. */
  function InvoiceAmountFor(amount_sats: int): (a: InvoiceAmount)
    ensures a.amount * 100_000_000.0 == amount_sats as real
    ensures a.currency == "BTC"
  {
    InvoiceAmount(amount_sats as real / 100_000_000.0, "BTC")
  }

  /**
   * `generate_lightning_deposit`: reads the user (a missing user makes the read throw), creates a
   * Strike invoice for the amount, gets its lightning invoice and records an unpaid deposit.
   * `requested` is the amount sent with the invoice request, `None` when none was sent.
   */
  method GenerateLightningDeposit(db: Database, amount_sats: int, user_id: string,
                                  invoiceId: Option<string>, lnInvoice: Option<string>, freshId: string)
    returns (r: Result<LightningDeposit, StrikeError>, requested: Option<InvoiceAmount>)
    requires db.Valid()
    modifies db
    ensures db.Valid()
    ensures db.users == old(db.users) && db.payments == old(db.payments)
    ensures requested.Some? <==> HasUser(db.users, user_id)
    ensures requested.Some? ==> requested.value == InvoiceAmountFor(amount_sats)
    ensures !HasUser(db.users, user_id) ==> r.Err? && r.error.Store?
    ensures r.Ok? <==> HasUser(db.users, user_id) && invoiceId.Some? && lnInvoice.Some? && !HasDeposit(old(db.deposits), freshId)
    ensures r.Ok? ==>
      r.value == AsDeposit(freshId, LightningDepositInsert(amount_sats, lnInvoice.value, None, invoiceId.value, user_id, false))
      && db.deposits == old(db.deposits) + [r.value]
    ensures r.Err? ==> db.deposits == old(db.deposits)
  {
    var user := SupabaseService.GetUser(db, user_id);
    if user.Err? {
      return Err(Store(user.error)), None;
    }
    requested := Some(InvoiceAmountFor(amount_sats));
    if invoiceId.None? {
      return Err(InvoiceRequestFailed), requested;
    }
    var strike_id := invoiceId.value;
    if lnInvoice.None? {
      return Err(InvoiceRequestFailed), requested;
    }
    var lnurl := lnInvoice.value;
    var inserted := SupabaseService.InsertUserLightningDeposit(
      db, LightningDepositInsert(amount_sats, lnurl, None, strike_id, user_id, false), freshId);
    if inserted.Err? {
      return Err(Store(inserted.error)), requested;
    }
    r := Ok(inserted.value);
  }
}
