/** The credit ledger of lib/actions/general.action.ts: reading a user's
    balance and the all-or-nothing debit transaction. */
module Ledger {
  import opened Base
  import opened Docs

  /** `getUserCredits`: a user that does not exist, or whose document has no
      `credits` field, has 0 credits. */
  function GetUserCredits(users: Users, uid: string): (c: int)
    ensures uid !in users || users[uid].credits.None? ==> c == 0
    ensures uid in users && users[uid].credits.Some? ==> c == users[uid].credits.value
  {
    if uid in users then Balance(users[uid]) else 0
  }

  /** Every stored balance is non-negative (an absent one reads as 0). */
  ghost predicate NonNegative(users: Users) {
    forall uid :: uid in users ==> Balance(users[uid]) >= 0
  }

  /** `users` and `users'` agree on every user but `uid`, and have the same users. */
  ghost predicate OthersUnchanged(users: Users, users': Users, uid: string) {
    && users'.Keys == users.Keys
    && forall v :: v in users && v != uid ==> users'[v] == users[v]
  }

  /** The outcome of the debit transaction: whether it committed, and the users collection after it. */
  datatype Debited = Debited(ok: bool, users: Users)

  /** The transaction of `deductUserCredits` as one atomic step. */
  function Debit(users: Users, uid: string, amount: int): (r: Debited)
    ensures r.ok <==> uid in users && GetUserCredits(users, uid) >= amount
    ensures !r.ok ==> r.users == users
    ensures r.ok ==> OthersUnchanged(users, r.users, uid)
    ensures r.ok ==> GetUserCredits(r.users, uid) == GetUserCredits(users, uid) - amount >= 0
  {
    if uid !in users then Debited(false, users)
    else
      var prev := Balance(users[uid]);
      if prev < amount then Debited(false, users)
      else Debited(true, users[uid := users[uid].(credits := Some(prev - amount))])
  }

  /** A debit of any amount keeps every balance non-negative. */
  lemma DebitKeepsNonNegative(users: Users, uid: string, amount: int)
    requires NonNegative(users)
    ensures NonNegative(Debit(users, uid, amount).users)
  {
    var r := Debit(users, uid, amount);
    if r.ok {
      assert Balance(r.users[uid]) == GetUserCredits(r.users, uid);
    }
  }

  /** The increment both payment webhooks apply inside their transaction on
      an existing user: the balance, an absent one read as 0, rises by `amount`. */
  function Credit(users: Users, uid: string, amount: int): (users': Users)
    requires uid in users
    ensures OthersUnchanged(users, users', uid)
    ensures GetUserCredits(users', uid) == GetUserCredits(users, uid) + amount
  {
    users[uid := users[uid].(credits := Some(Balance(users[uid]) + amount))]
  }

  /** The increment over the database. */
  method CreditUser(db: Db, uid: string, amount: int)
    requires uid in db.users
    modifies db`users
    ensures db.users == Credit(old(db.users), uid, amount)
  {
    var currentCredits := Balance(db.users[uid]);
    db.users := db.users[uid := db.users[uid].(credits := Some(currentCredits + amount))];
  }

  /** `deductUserCredits(userId, amount)`: inside one transaction, read the
      user, give up if it does not exist or holds fewer than `amount` credits,
      else write back the balance less `amount`. A thrown error aborts the
      transaction and is answered with `false`. */
  method DeductUserCredits(db: Db, uid: string, amount: int) returns (ok: bool)
    modifies db`users
    ensures Debited(ok, db.users) == Debit(old(db.users), uid, amount)
  {
    if uid !in db.users {
      return false;  // "User not found"
    }
    var prevCredits := Balance(db.users[uid]);
    if prevCredits < amount {
      return false;  // "Insufficient credits"
    }
    db.users := db.users[uid := db.users[uid].(credits := Some(prevCredits - amount))];
    return true;
  }
}
