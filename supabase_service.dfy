/**
 * The Supabase data access of src/services/supabase.service.ts over the in-memory tables.
 * Every function there throws the query's `error`; here that is an `Err` of `DbError`.
 */
module SupabaseService {
  import opened Wrappers
  import opened Ledger

  /** `insert_user`: one new user with balance 0, or the error of the insert. */
  method InsertUser(db: Database, freshId: string) returns (r: Result<User, DbError>)
    requires db.Valid()
    modifies db
    ensures db.Valid()
    ensures db.deposits == old(db.deposits) && db.payments == old(db.payments)
    ensures r.Ok? <==> !HasUser(old(db.users), freshId)
    ensures r.Ok? ==> r.value == User(freshId, None, 0) && db.users == old(db.users) + [r.value]
    ensures r.Err? ==> db.users == old(db.users)
  {
    r := db.InsertUser(freshId);
  }

  /** `get_user(user_id)`: the user with that id; with unique ids it fails exactly when there is none. */
  function GetUser(db: Database, user_id: string): (r: Result<User, DbError>)
    reads db
    ensures UniqueUserIds(db.users) ==> (r.Ok? <==> HasUser(db.users, user_id))
    ensures r.Ok? ==> r.value in db.users && r.value.id == user_id
  {
    var rows := UsersWhere(db.users, UserIdColumn, user_id);
    if |rows| == 1 then
      assert rows[0] in multiset(rows);
      Single(rows)
    else if UniqueUserIds(db.users) then
      UserByIdIsSingle(db.users, user_id);
      Single(rows)
    else Single(rows)
  }

  /**
   * `update_user_balance_sats`: reads the balance, then writes `current + change` to that user.
   * No lower bound is checked, and every other user is unchanged.
   */
  method UpdateUserBalanceSats(db: Database, user_id: string, balance_change_sats: int)
    returns (r: Result<User, DbError>)
    requires db.Valid()
    modifies db
    ensures db.Valid()
    ensures db.deposits == old(db.deposits) && db.payments == old(db.payments)
    ensures r.Ok? <==> HasUser(old(db.users), user_id)
    ensures r.Ok? ==> db.users == Credit(old(db.users), user_id, balance_change_sats)
    ensures r.Ok? ==> r.value.id == user_id && r.value.balance_sats == BalanceOf(db.users, user_id)
    ensures r.Err? ==> db.users == old(db.users)
  {
    var current := GetUser(db, user_id);
    if current.Err? {
      return Err(current.error);
    }
    r := WriteBalance(db, user_id, current.value, balance_change_sats);
  }

  /**
   * The write half of a read-then-write balance update: `update({ balance_sats: current + change })`
   * on the user whose row `current` was read by id. The row exists, so the write succeeds.
   */
  method WriteBalance(db: Database, user_id: string, current: User, balance_change_sats: int)
    returns (r: Result<User, DbError>)
    requires db.Valid() && current in db.users && current.id == user_id
    modifies db
    ensures db.Valid()
    ensures db.deposits == old(db.deposits) && db.payments == old(db.payments)
    ensures r.Ok? && db.users == Credit(old(db.users), user_id, balance_change_sats)
    ensures r.value == current.(balance_sats := current.balance_sats + balance_change_sats)
    ensures r.value.balance_sats == BalanceOf(db.users, user_id)
  {
    ghost var before := db.users;
    var updated_balance_sats := current.balance_sats + balance_change_sats;
    SetBalanceIsCredit(before, user_id, current, balance_change_sats, updated_balance_sats);
    SingleUserRow(before, user_id, current);
    CreditedRowBalance(before, user_id, current, balance_change_sats);
    r := db.UpdateUserWhere(UserIdColumn, user_id, SetBalance(updated_balance_sats));
  }

  /** On unique ids, the select by `id` of an existing user is exactly that user's row. */
  lemma SingleUserRow(us: seq<User>, id: string, u: User)
    requires UniqueUserIds(us) && u in us && u.id == id
    ensures |UsersWhere(us, UserIdColumn, id)| == 1 && UsersWhere(us, UserIdColumn, id)[0] == u
  {
    assert HasUser(us, id) by {
      var k :| 0 <= k < |us| && us[k] == u;
    }
    UserByIdIsSingle(us, id);
    var rows := UsersWhere(us, UserIdColumn, id);
    assert rows == [rows[0]];
    assert u in multiset(rows);
  }

  /** The row a credit rewrites holds the new balance. */
  lemma CreditedRowBalance(us: seq<User>, id: string, u: User, delta: int)
    requires UniqueUserIds(us) && u in us && u.id == id
    ensures BalanceOf(Credit(us, id, delta), id) == u.balance_sats + delta
  {
    var k :| 0 <= k < |us| && us[k] == u;
    FirstMatchBalance(us, id, k);
    FirstMatchBalance(Credit(us, id, delta), id, k);
  }

  /** With unique ids, the balance of `id` is the balance held in its row. */
  lemma {:induction false} FirstMatchBalance(us: seq<User>, id: string, k: nat)
    requires UniqueUserIds(us) && k < |us| && us[k].id == id
    ensures BalanceOf(us, id) == us[k].balance_sats
  {
    if k > 0 {
      assert us[0].id != id;
      FirstMatchBalance(us[1..], id, k - 1);
    }
  }

  /** `insert_user_lightning_deposit`: appends the row with its given fields and returns it. */
  method InsertUserLightningDeposit(db: Database, deposit: LightningDepositInsert, freshId: string)
    returns (r: Result<LightningDeposit, DbError>)
    requires db.Valid()
    modifies db
    ensures db.Valid()
    ensures db.users == old(db.users) && db.payments == old(db.payments)
    ensures r.Ok? <==> !HasDeposit(old(db.deposits), freshId) && HasUser(db.users, deposit.user_id)
    ensures r.Ok? ==> r.value == AsDeposit(freshId, deposit) && db.deposits == old(db.deposits) + [r.value]
    ensures r.Err? ==> db.deposits == old(db.deposits)
  {
    r := db.InsertDeposit(deposit, freshId);
  }

  /** `update_user_lightning_deposit_paid`: only the `paid` field of that deposit changes. */
  method UpdateUserLightningDepositPaid(db: Database, lightning_deposit_id: string, paid: bool)
    returns (r: Result<LightningDeposit, DbError>)
    requires db.Valid()
    modifies db
    ensures db.Valid()
    ensures db.users == old(db.users) && db.payments == old(db.payments)
    ensures r.Ok? <==> HasDeposit(old(db.deposits), lightning_deposit_id)
    ensures r.Ok? ==> db.deposits == SetPaid(old(db.deposits), lightning_deposit_id, paid)
    ensures forall d :: d in old(db.deposits) && d.id == lightning_deposit_id ==> r == Ok(d.(paid := paid))
    ensures r.Err? ==> db.deposits == old(db.deposits)
  {
    ghost var before := db.deposits;
    r := db.UpdateDepositPaid(lightning_deposit_id, paid);
    forall d | d in before && d.id == lightning_deposit_id
      ensures r == Ok(d.(paid := paid))
    {
      DepositRowById(before, d);
    }
  }

  /** `insert_user_pix_payment`: appends the row with its given fields and returns it. */
  method InsertUserPixPayment(db: Database, pix_payment: PixPaymentInsert, freshId: string)
    returns (r: Result<PixPayment, DbError>)
    requires db.Valid()
    modifies db
    ensures db.Valid()
    ensures db.users == old(db.users) && db.deposits == old(db.deposits)
    ensures r.Ok? <==> !HasPayment(old(db.payments), freshId) && HasUser(db.users, pix_payment.user_id)
    ensures r.Ok? ==> r.value == AsPayment(freshId, pix_payment) && db.payments == old(db.payments) + [r.value]
    ensures r.Err? ==> db.payments == old(db.payments)
  {
    r := db.InsertPayment(pix_payment, freshId);
  }

  /** `get_user_lightning_deposit(lnurl)`: succeeds only when exactly one deposit has that lnurl. */
  function GetUserLightningDeposit(db: Database, lnurl: string): (r: Result<LightningDeposit, DbError>)
    reads db
    ensures r.Ok? <==> |DepositsWhere(db.deposits, LnurlColumn, lnurl)| == 1
    ensures r.Ok? ==> r.value == DepositsWhere(db.deposits, LnurlColumn, lnurl)[0]
    ensures r.Ok? ==> r.value in db.deposits && r.value.lnurl == lnurl
    ensures r.Ok? ==> forall d :: d in db.deposits && d.lnurl == lnurl ==> d == r.value
  {
    var rows := DepositsWhere(db.deposits, LnurlColumn, lnurl);
    if |rows| == 1 then
      assert rows[0] in multiset(rows);
      assert rows == [rows[0]];
      assert forall d :: d in db.deposits && d.lnurl == lnurl ==> d in multiset(rows);
      Single(rows)
    else Single(rows)
  }

  /** `list_user_pix_payments`: exactly the rows with that `user_id`. */
  function ListUserPixPayments(db: Database, user_id: string): (r: seq<PixPayment>)
    reads db
    ensures forall p :: p in r <==> p in db.payments && p.user_id == user_id
  {
    var rows := PaymentsOf(db.payments, user_id);
    assert forall p :: p in rows <==> p in multiset(rows);
    assert forall p :: p in db.payments <==> p in multiset(db.payments);
    rows
  }

  /** `list_user_lightning_deposits`: exactly the rows with that `user_id`. */
  function ListUserLightningDeposits(db: Database, user_id: string): (r: seq<LightningDeposit>)
    reads db
    ensures forall d :: d in r <==> d in db.deposits && d.user_id == user_id
  {
    var rows := DepositsWhere(db.deposits, DepositUserColumn, user_id);
    assert forall d :: d in rows <==> d in multiset(rows);
    assert forall d :: d in db.deposits <==> d in multiset(db.deposits);
    rows
  }
}
