/** `POST /api/interview/start` (app/api/interview/start/route.ts): an
    authenticated caller with at least 10 credits is debited 10 credits. */
module InterviewStart {
  import opened Base
  import opened Docs
  import opened Ledger

  /** The price of one interview, in credits. */
  const InterviewCost := 10

  datatype StartOutcome = StartOutcome(resp: Response, users: Users)

  /** The route as one sequence of atomic steps; `caller` is the signed-in
      user's id, if any. */
  function Start(users: Users, caller: Option<string>): (r: StartOutcome)
    ensures caller.None? ==> r == StartOutcome(Error(401), users)
    ensures caller.Some? && GetUserCredits(users, caller.value) < InterviewCost ==> r == StartOutcome(Error(402), users)
    ensures r.resp == Ok(Started) <==> caller.Some? && GetUserCredits(users, caller.value) >= InterviewCost
    ensures r.resp != Ok(Started) ==> r.users == users
    ensures r.resp == Ok(Started) ==>
      && OthersUnchanged(users, r.users, caller.value)
      && GetUserCredits(r.users, caller.value) == GetUserCredits(users, caller.value) - InterviewCost >= 0
    ensures r.resp in {Ok(Started), Error(401), Error(402)}
  {
    if caller.None? then StartOutcome(Error(401), users)
    else if GetUserCredits(users, caller.value) < InterviewCost then StartOutcome(Error(402), users)
    else
      var d := Debit(users, caller.value, InterviewCost);
      if !d.ok then StartOutcome(Error(500), users) else StartOutcome(Ok(Started), d.users)
  }

  /** The route handler: authenticate, read the balance, then debit. */
  method StartInterview(db: Db, caller: Option<string>) returns (resp: Response)
    modifies db`users
    ensures StartOutcome(resp, db.users) == Start(old(db.users), caller)
  {
    if caller.None? {
      return Error(401);
    }
    var credits := GetUserCredits(db.users, caller.value);
    if credits < InterviewCost {
      return Error(402);
    }
    var success := DeductUserCredits(db, caller.value, InterviewCost);
    if !success {
      return Error(500);
    }
    return Ok(Started);
  }

  /** A user holding 5 credits is refused with 402 and keeps the 5 credits. */
  lemma FiveCreditsAreRefused(uid: string)
    ensures var users := map[uid := UserDoc(Some(5))];
            Start(users, Some(uid)) == StartOutcome(Error(402), users)
  {
  }
}
