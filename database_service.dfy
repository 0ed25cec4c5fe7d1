/**
 * The second data access layer, src/services/database.service.ts, over the same three tables.
 * Its `get_user` and `update_user_balance` take an optional `user_id` and an optional
 * `public_key` and address the user by `user_id` when it is given, by `public_key` otherwise;
 * with neither, `get_user` creates a new user.
 */
module DatabaseService {
  import opened Wrappers
  import opened Ledger
  import SupabaseService

  /** `if (x)` on an optional string argument: present and not the empty string. */
  predicate Given(s: Option<string>)
  {
    s.Some? && s.value != ""
  }

  datatype ServiceError = Query(error: DbError) | NoUserIdOrPublicKey

  /** A query's `error` rethrown by the service. */
  function Lift<T>(q: Result<T, DbError>): Result<T, ServiceError>
  {
    match q
    case Ok(v) => Ok(v)
    case Err(e) => Err(Query(e))
  }

  /** `from("users").select().eq(c, value).single()`: the one user matching, or the count error. */
  function SelectSingleUser(db: Database, c: UserColumn, value: string): (r: Result<User, DbError>)
    reads db
    ensures r.Ok? <==> |UsersWhere(db.users, c, value)| == 1
    ensures r.Ok? ==> r.value == UsersWhere(db.users, c, value)[0]
    ensures r.Ok? ==> r.value in db.users && UserMatches(r.value, c, value)
    ensures r.Ok? ==> forall u :: u in db.users && UserMatches(u, c, value) ==> u == r.value
    ensures r.Err? ==> r.error == NotSingle(|UsersWhere(db.users, c, value)|)
  {
    var rows := UsersWhere(db.users, c, value);
    if |rows| == 1 then
      assert rows[0] in multiset(rows);
      assert rows == [rows[0]];
      assert forall u :: u in db.users && UserMatches(u, c, value) ==> u in multiset(rows);
      Single(rows)
    else Single(rows)
  }

  /** Ids are a primary key, so the select by id fails exactly when no user has that id. */
  lemma SelectByIdFindsTheUser(db: Database, id: string)
    requires db.Valid()
    ensures SelectSingleUser(db, UserIdColumn, id).Ok? <==> HasUser(db.users, id)
  {
    UserByIdIsSingle(db.users, id);
  }

  /**
   * `get_user({ user_id, public_key })`: the select by `user_id` when it is given, else the
   * select by `public_key` when that is given, else a fresh user with balance 0.
   */
  method GetUser(db: Database, user_id: Option<string>, public_key: Option<string>, freshId: string)
    returns (r: Result<User, DbError>)
    requires db.Valid()
    modifies db
    ensures db.Valid()
    ensures db.deposits == old(db.deposits) && db.payments == old(db.payments)
    ensures Given(user_id) ==>
      r == old(SelectSingleUser(db, UserIdColumn, user_id.value)) && db.users == old(db.users)
    ensures !Given(user_id) && Given(public_key) ==>
      r == old(SelectSingleUser(db, PublicKeyColumn, public_key.value)) && db.users == old(db.users)
    ensures !Given(user_id) && !Given(public_key) ==>
      && (HasUser(old(db.users), freshId) ==> r == Err(DuplicateId) && db.users == old(db.users))
      && (!HasUser(old(db.users), freshId) ==> r == Ok(User(freshId, None, 0)) && db.users == old(db.users) + [r.value])
  {
    if Given(user_id) {
      return SelectSingleUser(db, UserIdColumn, user_id.value);
    }
    if Given(public_key) {
      return SelectSingleUser(db, PublicKeyColumn, public_key.value);
    }
    r := db.InsertUser(freshId);
  }

  /** `link_public_key_to_user`: sets `public_key` on the user with that id and nothing else. */
  method LinkPublicKeyToUser(db: Database, public_key: string, user_id: string)
    returns (r: Result<User, DbError>)
    requires db.Valid()
    modifies db
    ensures db.Valid()
    ensures db.deposits == old(db.deposits) && db.payments == old(db.payments)
    ensures r.Ok? <==> HasUser(old(db.users), user_id)
    ensures forall u :: u in old(db.users) && u.id == user_id ==> r == Ok(u.(public_key := Some(public_key)))
    ensures r.Ok? ==> |db.users| == |old(db.users)| && forall i :: 0 <= i < |db.users| ==>
      db.users[i] == if old(db.users)[i].id == user_id then old(db.users)[i].(public_key := Some(public_key)) else old(db.users)[i]
    ensures r.Err? ==> db.users == old(db.users)
  {
    ghost var before := db.users;
    UserByIdIsSingle(before, user_id);
    r := db.UpdateUserWhere(UserIdColumn, user_id, SetPublicKey(public_key));
    forall u | u in before && u.id == user_id
      ensures r == Ok(u.(public_key := Some(public_key)))
    {
      SupabaseService.SingleUserRow(before, user_id, u);
    }
  }

  /**
   * `update_user_balance`: reads the user through `get_user` (which creates one when neither
   * argument is given), then writes `current + change` to the row chosen by `user_id`, else by
   * `public_key`; with neither it fails after the user was created.
   */
  method UpdateUserBalance(db: Database, balance_change_sats: int, user_id: Option<string>,
                           public_key: Option<string>, freshId: string)
    returns (r: Result<User, ServiceError>)
    requires db.Valid()
    modifies db
    ensures db.Valid()
    ensures db.deposits == old(db.deposits) && db.payments == old(db.payments)
    ensures Given(user_id) ==>
      && (r.Ok? <==> HasUser(old(db.users), user_id.value))
      && (r.Ok? ==> db.users == Credit(old(db.users), user_id.value, balance_change_sats))
      && (r.Ok? ==> r.value.id == user_id.value && r.value.balance_sats == BalanceOf(db.users, user_id.value))
      && (r.Err? ==> db.users == old(db.users))
    ensures !Given(user_id) && Given(public_key) ==>
      && (r.Ok? <==> |UsersWhere(old(db.users), PublicKeyColumn, public_key.value)| == 1)
      && (r.Ok? ==> r.value.balance_sats == UsersWhere(old(db.users), PublicKeyColumn, public_key.value)[0].balance_sats + balance_change_sats)
      && (r.Ok? ==> r.value == UsersWhere(old(db.users), PublicKeyColumn, public_key.value)[0].(balance_sats := r.value.balance_sats))
      && (r.Ok? ==> db.users == UpdateUsers(old(db.users), PublicKeyColumn, public_key.value, SetBalance(r.value.balance_sats)))
      && (r.Err? ==> db.users == old(db.users))
    ensures !Given(user_id) && !Given(public_key) ==>
      && (HasUser(old(db.users), freshId) ==> r == Err(Query(DuplicateId)) && db.users == old(db.users))
      && (!HasUser(old(db.users), freshId) ==>
            r == Err(NoUserIdOrPublicKey) && db.users == old(db.users) + [User(freshId, None, 0)])
  {
    ghost var before := db.users;
    if Given(user_id) {
      SelectByIdFindsTheUser(db, user_id.value);
    }
    var current := GetUser(db, user_id, public_key, freshId);
    if current.Err? {
      return Err(Query(current.error));
    }
    if Given(user_id) {
      var updated := SupabaseService.WriteBalance(db, user_id.value, current.value, balance_change_sats);
      return Lift(updated);
    }
    var updated_balance_sats := current.value.balance_sats + balance_change_sats;
    if Given(public_key) {
      ghost var u := UsersWhere(before, PublicKeyColumn, public_key.value)[0];
      assert current.value == u;
      var updated := db.UpdateUserWhere(PublicKeyColumn, public_key.value, SetBalance(updated_balance_sats));
      return Lift(updated);
    }
    return Err(NoUserIdOrPublicKey);
  }

  /** `record_user_lightning_deposit`: appends the row with its given fields and returns it. */
  method RecordUserLightningDeposit(db: Database, lightning_deposit: LightningDepositInsert, freshId: string)
    returns (r: Result<LightningDeposit, DbError>)
    requires db.Valid()
    modifies db
    ensures db.Valid()
    ensures db.users == old(db.users) && db.payments == old(db.payments)
    ensures r.Ok? <==> !HasDeposit(old(db.deposits), freshId) && HasUser(db.users, lightning_deposit.user_id)
    ensures r.Ok? ==> r.value == AsDeposit(freshId, lightning_deposit) && db.deposits == old(db.deposits) + [r.value]
    ensures r.Err? ==> db.deposits == old(db.deposits)
  {
    r := db.InsertDeposit(lightning_deposit, freshId);
  }

  /** `record_user_pix_payment`: appends the row with its given fields and returns it. */
  method RecordUserPixPayment(db: Database, pix_payment: PixPaymentInsert, freshId: string)
    returns (r: Result<PixPayment, DbError>)
    requires db.Valid()
    modifies db
    ensures db.Valid()
    ensures db.users == old(db.users) && db.deposits == old(db.deposits)
    ensures r.Ok? <==> !HasPayment(old(db.payments), freshId) && HasUser(db.users, pix_payment.user_id)
    ensures r.Ok? ==> r.value == AsPayment(freshId, pix_payment) && db.payments == old(db.payments) + [r.value]
    ensures r.Err? ==> db.payments == old(db.payments)
  {
    r := db.InsertPayment(pix_payment, freshId);
  }
}
