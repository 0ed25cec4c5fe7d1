/**
 * The three Supabase tables behind src/services/supabase.service.ts and
 * src/services/database.service.ts (`users`, `lightning_deposits`, `pix_payments`, row shapes
 * from src/types/supabase.ts), held in memory, with the PostgREST query forms the services use:
 * `insert(...).select().single()`, `select().eq(column, value)[.single()]` and
 * `update(...).eq(column, value).select().single()`.
 *
 * `id` is the primary key of every table, and the `user_id` of a deposit or a payment is a
 * foreign key to `users.id`. The `id` the database would generate for a new row is a parameter
 * (`freshId`); `created_at` is not modelled.
 */
module Ledger {
  import opened Wrappers

  datatype User = User(id: string, public_key: Option<string>, balance_sats: int)

  datatype LightningDeposit = LightningDeposit(
    id: string, amount_sats: int, lnurl: string, description: Option<string>,
    strike_id: string, user_id: string, paid: bool)

  /** `UserLightningDepositInsert`: a deposit row without its generated `id`. */
  datatype LightningDepositInsert = LightningDepositInsert(
    amount_sats: int, lnurl: string, description: Option<string>,
    strike_id: string, user_id: string, paid: bool)

  datatype PixPayment = PixPayment(
    id: string, amount_brl: real, amount_sats: int, payee_name: string, description: Option<string>,
    pix_key: Option<string>, pix_qr_code: Option<string>, sqala_id: string, user_id: string, paid: bool)

  /** `UserPixPaymentInsert`: a payment row without its generated `id`. */
  datatype PixPaymentInsert = PixPaymentInsert(
    amount_brl: real, amount_sats: int, payee_name: string, description: Option<string>,
    pix_key: Option<string>, pix_qr_code: Option<string>, sqala_id: string, user_id: string, paid: bool)

  /**
   * The `error` a query returns: `.single()` saw `count` rows instead of one, an insert reused a
   * taken primary key, or it named a `user_id` with no user.
   */
  datatype DbError = NotSingle(count: nat) | DuplicateId | UnknownUser

  function AsDeposit(id: string, ins: LightningDepositInsert): LightningDeposit
  {
    LightningDeposit(id, ins.amount_sats, ins.lnurl, ins.description, ins.strike_id, ins.user_id, ins.paid)
  }

  function AsPayment(id: string, ins: PixPaymentInsert): PixPayment
  {
    PixPayment(id, ins.amount_brl, ins.amount_sats, ins.payee_name, ins.description, ins.pix_key,
               ins.pix_qr_code, ins.sqala_id, ins.user_id, ins.paid)
  }

  /** The columns of `users` the services filter on. */
  datatype UserColumn = UserIdColumn | PublicKeyColumn

  /** `.eq(column, value)` on a user row; a null `public_key` matches nothing. */
  predicate UserMatches(u: User, c: UserColumn, value: string)
  {
    match c
    case UserIdColumn => u.id == value
    case PublicKeyColumn => u.public_key == Some(value)
  }

  /** `select().eq(c, value)` on `users`: the matching rows, in table order. */
  function UsersWhere(us: seq<User>, c: UserColumn, value: string): (r: seq<User>)
    ensures forall u :: multiset(r)[u] == if UserMatches(u, c, value) then multiset(us)[u] else 0
  {
    if us == [] then []
    else
      assert us == [us[0]] + us[1..];
      (if UserMatches(us[0], c, value) then [us[0]] else []) + UsersWhere(us[1..], c, value)
  }

  /** The columns of `lightning_deposits` the services filter on. */
  datatype DepositColumn = DepositIdColumn | LnurlColumn | DepositUserColumn

  predicate DepositMatches(d: LightningDeposit, c: DepositColumn, value: string)
  {
    match c
    case DepositIdColumn => d.id == value
    case LnurlColumn => d.lnurl == value
    case DepositUserColumn => d.user_id == value
  }

  /** `select().eq(c, value)` on `lightning_deposits`: the matching rows, in table order. */
  function DepositsWhere(ds: seq<LightningDeposit>, c: DepositColumn, value: string): (r: seq<LightningDeposit>)
    ensures forall d :: multiset(r)[d] == if DepositMatches(d, c, value) then multiset(ds)[d] else 0
  {
    if ds == [] then []
    else
      assert ds == [ds[0]] + ds[1..];
      (if DepositMatches(ds[0], c, value) then [ds[0]] else []) + DepositsWhere(ds[1..], c, value)
  }

  /** `select().eq("user_id", user_id)` on `pix_payments`: the user's payments, in table order. */
  function PaymentsOf(ps: seq<PixPayment>, user_id: string): (r: seq<PixPayment>)
    ensures forall p :: multiset(r)[p] == if p.user_id == user_id then multiset(ps)[p] else 0
  {
    if ps == [] then []
    else
      assert ps == [ps[0]] + ps[1..];
      (if ps[0].user_id == user_id then [ps[0]] else []) + PaymentsOf(ps[1..], user_id)
  }

  /** `.single()`: the one row, or an error when there are none or several. */
  function Single<T>(rows: seq<T>): (r: Result<T, DbError>)
    ensures r.Ok? <==> |rows| == 1
    ensures r.Ok? ==> r.value == rows[0]
    ensures r.Err? ==> r.error == NotSingle(|rows|)
  {
    if |rows| == 1 then Ok(rows[0]) else Err(NotSingle(|rows|))
  }

  predicate HasUser(us: seq<User>, id: string)
  {
    exists i :: 0 <= i < |us| && us[i].id == id
  }

  predicate UniqueUserIds(us: seq<User>)
  {
    forall i, j :: 0 <= i < j < |us| ==> us[i].id != us[j].id
  }

  predicate UniqueDepositIds(ds: seq<LightningDeposit>)
  {
    forall i, j :: 0 <= i < j < |ds| ==> ds[i].id != ds[j].id
  }

  predicate UniquePaymentIds(ps: seq<PixPayment>)
  {
    forall i, j :: 0 <= i < j < |ps| ==> ps[i].id != ps[j].id
  }

  predicate HasDeposit(ds: seq<LightningDeposit>, id: string)
  {
    exists i :: 0 <= i < |ds| && ds[i].id == id
  }

  predicate HasPayment(ps: seq<PixPayment>, id: string)
  {
    exists i :: 0 <= i < |ps| && ps[i].id == id
  }

  /** With unique ids, `select().eq("id", id)` finds exactly one row iff the user exists. */
  lemma {:induction false} UserByIdIsSingle(us: seq<User>, id: string)
    requires UniqueUserIds(us)
    ensures |UsersWhere(us, UserIdColumn, id)| == if HasUser(us, id) then 1 else 0
    ensures HasUser(us, id) ==> UsersWhere(us, UserIdColumn, id)[0].id == id
  {
    if us != [] {
      UserByIdIsSingle(us[1..], id);
      if us[0].id == id {
        assert !HasUser(us[1..], id);
      } else {
        assert HasUser(us, id) ==> HasUser(us[1..], id);
        assert HasUser(us[1..], id) ==> HasUser(us, id) by {
          if HasUser(us[1..], id) {
            var i :| 0 <= i < |us[1..]| && us[1..][i].id == id;
            assert us[i + 1].id == id;
          }
        }
      }
    }
  }

  /** With unique ids, `select().eq("id", id)` on deposits finds exactly one row iff the deposit exists. */
  lemma {:induction false} DepositByIdIsSingle(ds: seq<LightningDeposit>, id: string)
    requires UniqueDepositIds(ds)
    ensures |DepositsWhere(ds, DepositIdColumn, id)| == if HasDeposit(ds, id) then 1 else 0
  {
    if ds != [] {
      DepositByIdIsSingle(ds[1..], id);
      if ds[0].id == id {
        assert !HasDeposit(ds[1..], id);
      } else {
        assert HasDeposit(ds, id) ==> HasDeposit(ds[1..], id);
        assert HasDeposit(ds[1..], id) ==> HasDeposit(ds, id) by {
          if HasDeposit(ds[1..], id) {
            var i :| 0 <= i < |ds[1..]| && ds[1..][i].id == id;
            assert ds[i + 1].id == id;
          }
        }
      }
    }
  }

  /** With unique ids, the select by `id` of a deposit in the table is that deposit alone. */
  lemma DepositRowById(ds: seq<LightningDeposit>, d: LightningDeposit)
    requires UniqueDepositIds(ds) && d in ds
    ensures DepositsWhere(ds, DepositIdColumn, d.id) == [d]
  {
    assert HasDeposit(ds, d.id) by {
      var k :| 0 <= k < |ds| && ds[k] == d;
    }
    DepositByIdIsSingle(ds, d.id);
    var rows := DepositsWhere(ds, DepositIdColumn, d.id);
    assert rows == [rows[0]];
    assert d in multiset(rows);
  }

  /** What an `update({...})` on `users` writes. */
  datatype UserChange = SetBalance(balance_sats: int) | SetPublicKey(public_key: string)

  function Changed(u: User, ch: UserChange): User
  {
    match ch
    case SetBalance(b) => u.(balance_sats := b)
    case SetPublicKey(k) => u.(public_key := Some(k))
  }

  /** `update(ch).eq(c, value)` on `users`: every matching row changed, every other row left alone. */
  function UpdateUsers(us: seq<User>, c: UserColumn, value: string, ch: UserChange): (r: seq<User>)
    ensures |r| == |us|
    ensures forall i :: 0 <= i < |us| ==> r[i] == if UserMatches(us[i], c, value) then Changed(us[i], ch) else us[i]
  {
    if us == [] then []
    else [if UserMatches(us[0], c, value) then Changed(us[0], ch) else us[0]] + UpdateUsers(us[1..], c, value, ch)
  }

  /** `update({ paid }).eq("id", id)` on `lightning_deposits`. */
  function SetPaid(ds: seq<LightningDeposit>, id: string, paid: bool): (r: seq<LightningDeposit>)
    ensures |r| == |ds|
    ensures forall i :: 0 <= i < |ds| ==> r[i] == if ds[i].id == id then ds[i].(paid := paid) else ds[i]
  {
    if ds == [] then []
    else [if ds[0].id == id then ds[0].(paid := paid) else ds[0]] + SetPaid(ds[1..], id, paid)
  }

  /** An update of `users` keeps every row's `id`, so it keeps the keys unique and the set of users. */
  lemma UpdateUsersKeepsKeys(us: seq<User>, c: UserColumn, value: string, ch: UserChange)
    ensures UniqueUserIds(us) ==> UniqueUserIds(UpdateUsers(us, c, value, ch))
    ensures forall id :: HasUser(UpdateUsers(us, c, value, ch), id) <==> HasUser(us, id)
  {
    var r := UpdateUsers(us, c, value, ch);
    assert forall i :: 0 <= i < |us| ==> r[i].id == us[i].id;
    forall id
      ensures HasUser(r, id) <==> HasUser(us, id)
    {
      if HasUser(r, id) {
        var i :| 0 <= i < |r| && r[i].id == id;
        assert us[i].id == id;
      }
      if HasUser(us, id) {
        var i :| 0 <= i < |us| && us[i].id == id;
        assert r[i].id == id;
      }
    }
  }

  /** Writing a balance to the rows with `id` makes it that user's balance. */
  lemma {:induction false} UpdatedBalance(us: seq<User>, id: string, b: int)
    requires HasUser(us, id)
    ensures BalanceOf(UpdateUsers(us, UserIdColumn, id, SetBalance(b)), id) == b
  {
    if us[0].id != id {
      HasUserInTail(us, id);
      UpdatedBalance(us[1..], id, b);
      assert UpdateUsers(us, UserIdColumn, id, SetBalance(b))[1..] == UpdateUsers(us[1..], UserIdColumn, id, SetBalance(b));
    }
  }

  /** The user's balance (0 for a missing user, a case the callers never ask about). */
  function BalanceOf(us: seq<User>, id: string): int
  {
    if us == [] then 0
    else if us[0].id == id then us[0].balance_sats
    else BalanceOf(us[1..], id)
  }

  /** Adding `delta` to the balance of user `id`. */
  function Credit(us: seq<User>, id: string, delta: int): (r: seq<User>)
    ensures |r| == |us|
    ensures forall i :: 0 <= i < |us| ==>
      r[i] == if us[i].id == id then us[i].(balance_sats := us[i].balance_sats + delta) else us[i]
  {
    if us == [] then []
    else [if us[0].id == id then us[0].(balance_sats := us[0].balance_sats + delta) else us[0]]
         + Credit(us[1..], id, delta)
  }

  /** A credit raises that user's balance by exactly `delta` and no other user's balance. */
  lemma {:induction false} CreditMovesOneBalance(us: seq<User>, id: string, delta: int, other: string)
    ensures BalanceOf(Credit(us, id, delta), id) == BalanceOf(us, id) + (if HasUser(us, id) then delta else 0)
    ensures other != id ==> BalanceOf(Credit(us, id, delta), other) == BalanceOf(us, other)
  {
    if us != [] {
      CreditMovesOneBalance(us[1..], id, delta, other);
      var r := Credit(us, id, delta);
      assert r[1..] == Credit(us[1..], id, delta);
      if us[0].id != id {
        HasUserInTail(us, id);
      } else {
        assert HasUser(us, id) by { assert us[0].id == id; }
      }
    }
  }

  /** Past a first row with another id, the user is in the table exactly when it is in the rest. */
  lemma HasUserInTail(us: seq<User>, id: string)
    requires us != [] && us[0].id != id
    ensures HasUser(us, id) <==> HasUser(us[1..], id)
  {
    if HasUser(us, id) {
      var i :| 0 <= i < |us| && us[i].id == id;
      assert us[1..][i - 1].id == id;
    }
    if HasUser(us[1..], id) {
      var i :| 0 <= i < |us[1..]| && us[1..][i].id == id;
      assert us[i + 1].id == id;
    }
  }

  /** Writing a balance to the rows with `id` keeps that user in the table. */
  lemma UpdateKeepsUser(us: seq<User>, id: string, b: int)
    requires HasUser(us, id)
    ensures HasUser(UpdateUsers(us, UserIdColumn, id, SetBalance(b)), id)
  {
    var i :| 0 <= i < |us| && us[i].id == id;
    assert UpdateUsers(us, UserIdColumn, id, SetBalance(b))[i].id == id;
  }

  /** Two credits to one user add up. */
  lemma CreditsAdd(us: seq<User>, id: string, a: int, b: int)
    ensures Credit(Credit(us, id, a), id, b) == Credit(us, id, a + b)
  {
    var twice := Credit(Credit(us, id, a), id, b);
    var once := Credit(us, id, a + b);
    assert |twice| == |once|;
    forall i | 0 <= i < |us|
      ensures twice[i] == once[i]
    {
    }
  }

  /** On unique ids, setting the balance of the one row with `id` to `old + delta` is `Credit`. */
  lemma SetBalanceIsCredit(us: seq<User>, id: string, u: User, delta: int, balance: int)
    requires UniqueUserIds(us)
    requires u in us && u.id == id && balance == u.balance_sats + delta
    ensures UpdateUsers(us, UserIdColumn, id, SetBalance(balance)) == Credit(us, id, delta)
  {
    var r := UpdateUsers(us, UserIdColumn, id, SetBalance(balance));
    var c := Credit(us, id, delta);
    forall i | 0 <= i < |us|
      ensures r[i] == c[i]
    {
      if us[i].id == id {
        var k :| 0 <= k < |us| && us[k] == u;
        assert k == i;
      }
    }
  }

  /** The store: the three tables, in insertion order. */
  class Database {
    var users: seq<User>
    var deposits: seq<LightningDeposit>
    var payments: seq<PixPayment>

    /** Primary keys are unique and every deposit and payment belongs to an existing user. */
    ghost predicate Valid()
      reads this
    {
      && UniqueUserIds(users) && UniqueDepositIds(deposits) && UniquePaymentIds(payments)
      && (forall i :: 0 <= i < |deposits| ==> HasUser(users, deposits[i].user_id))
      && (forall i :: 0 <= i < |payments| ==> HasUser(users, payments[i].user_id))
    }

    constructor ()
      ensures Valid() && users == [] && deposits == [] && payments == []
    {
      users := [];
      deposits := [];
      payments := [];
    }

    /** `from("users").insert({ balance_sats: 0 }).select().single()`. */
    method InsertUser(freshId: string) returns (r: Result<User, DbError>)
      requires Valid()
      modifies this
      ensures Valid()
      ensures deposits == old(deposits) && payments == old(payments)
      ensures HasUser(old(users), freshId) ==> r == Err(DuplicateId) && users == old(users)
      ensures !HasUser(old(users), freshId) ==>
        r == Ok(User(freshId, None, 0)) && users == old(users) + [r.value]
    {
      if HasUser(users, freshId) {
        return Err(DuplicateId);
      }
      var u := User(freshId, None, 0);
      ghost var before := users;
      users := users + [u];
      assert forall id :: HasUser(before, id) ==> HasUser(users, id) by {
        forall id | HasUser(before, id) ensures HasUser(users, id) {
          var i :| 0 <= i < |before| && before[i].id == id;
          assert users[i].id == id;
        }
      }
      r := Ok(u);
    }

    /** `from(table).insert(row).select().single()` for a deposit. */
    method InsertDeposit(ins: LightningDepositInsert, freshId: string) returns (r: Result<LightningDeposit, DbError>)
      requires Valid()
      modifies this
      ensures Valid()
      ensures users == old(users) && payments == old(payments)
      ensures r.Ok? <==> !HasDeposit(old(deposits), freshId) && HasUser(users, ins.user_id)
      ensures r.Ok? ==> r.value == AsDeposit(freshId, ins) && deposits == old(deposits) + [r.value]
      ensures r.Err? ==> deposits == old(deposits)
      ensures r.Err? ==> r.error == if HasDeposit(old(deposits), freshId) then DuplicateId else UnknownUser
    {
      if HasDeposit(deposits, freshId) {
        return Err(DuplicateId);
      }
      if !HasUser(users, ins.user_id) {
        return Err(UnknownUser);
      }
      var d := AsDeposit(freshId, ins);
      deposits := deposits + [d];
      r := Ok(d);
    }

    /** `from("pix_payments").insert(row).select().single()`. */
    method InsertPayment(ins: PixPaymentInsert, freshId: string) returns (r: Result<PixPayment, DbError>)
      requires Valid()
      modifies this
      ensures Valid()
      ensures users == old(users) && deposits == old(deposits)
      ensures r.Ok? <==> !HasPayment(old(payments), freshId) && HasUser(users, ins.user_id)
      ensures r.Ok? ==> r.value == AsPayment(freshId, ins) && payments == old(payments) + [r.value]
      ensures r.Err? ==> payments == old(payments)
      ensures r.Err? ==> r.error == if HasPayment(old(payments), freshId) then DuplicateId else UnknownUser
    {
      if HasPayment(payments, freshId) {
        return Err(DuplicateId);
      }
      if !HasUser(users, ins.user_id) {
        return Err(UnknownUser);
      }
      var p := AsPayment(freshId, ins);
      payments := payments + [p];
      r := Ok(p);
    }

    /**
     * `from("users").update(ch).eq(c, value).select().single()`: the update is kept only when it
     * touches exactly one row (a singular response over several rows rolls the statement back).
     */
    method UpdateUserWhere(c: UserColumn, value: string, ch: UserChange) returns (r: Result<User, DbError>)
      requires Valid()
      modifies this
      ensures Valid()
      ensures deposits == old(deposits) && payments == old(payments)
      ensures r.Ok? <==> |UsersWhere(old(users), c, value)| == 1
      ensures r.Ok? ==> r.value == Changed(UsersWhere(old(users), c, value)[0], ch)
      ensures r.Ok? ==> users == UpdateUsers(old(users), c, value, ch)
      ensures r.Err? ==> users == old(users) && r.error == NotSingle(|UsersWhere(old(users), c, value)|)
    {
      var matching := UsersWhere(users, c, value);
      if |matching| != 1 {
        return Err(NotSingle(|matching|));
      }
      UpdateUsersKeepsKeys(users, c, value, ch);
      users := UpdateUsers(users, c, value, ch);
      r := Ok(Changed(matching[0], ch));
    }

    /** `from("lightning_deposits").update({ paid }).eq("id", id).select().single()`. */
    method UpdateDepositPaid(id: string, paid: bool) returns (r: Result<LightningDeposit, DbError>)
      requires Valid()
      modifies this
      ensures Valid()
      ensures users == old(users) && payments == old(payments)
      ensures r.Ok? <==> HasDeposit(old(deposits), id)
      ensures r.Ok? <==> |DepositsWhere(old(deposits), DepositIdColumn, id)| == 1
      ensures r.Ok? ==> r.value == DepositsWhere(old(deposits), DepositIdColumn, id)[0].(paid := paid)
      ensures r.Ok? ==> deposits == SetPaid(old(deposits), id, paid)
      ensures r.Err? ==> deposits == old(deposits) && r.error == NotSingle(0)
    {
      DepositByIdIsSingle(deposits, id);
      var matching := DepositsWhere(deposits, DepositIdColumn, id);
      if |matching| != 1 {
        return Err(NotSingle(|matching|));
      }
      ghost var before := deposits;
      deposits := SetPaid(deposits, id, paid);
      assert forall i :: 0 <= i < |deposits| ==> deposits[i].id == before[i].id && deposits[i].user_id == before[i].user_id;
      r := Ok(matching[0].(paid := paid));
    }
  }
}
