/** The Firestore documents the core reads and writes, and the database that
    holds them: the `users`, `orders` and `feedback` collections, each a map
    from document id to document. */
module Docs {
  import opened Base

  /** A `users` document; only its `credits` field matters here, and it may be absent. */
  datatype UserDoc = UserDoc(credits: Option<int>)

  datatype OrderStatus = Created | Completed | Failed

  /** An `orders` document, keyed by the Razorpay order id. `userId` and
      `notes.credits` may be absent in a stored document; `credits` and
      `amount` are kept as the creating request gave them. */
  datatype OrderDoc = OrderDoc(
    userId: Option<string>,
    amount: int,
    credits: int,
    notesCredits: Option<string>,
    status: OrderStatus,
    paymentId: Option<string>)

  datatype Engagement = Low | Medium | High

  datatype CategoryScore = CategoryScore(name: string, score: int, comment: string)

  /** A `feedback` document. */
  datatype FeedbackDoc = FeedbackDoc(
    interviewId: string,
    userId: string,
    kind: string,
    level: string,
    totalScore: int,
    categoryScores: seq<CategoryScore>,
    strengths: seq<string>,
    areasForImprovement: seq<string>,
    finalAssessment: string,
    numQuestionsAnswered: nat,
    numQuestionsAsked: nat,
    engagementLevel: Engagement,
    responseLength: nat)

  type Users = map<string, UserDoc>
  type Orders = map<string, OrderDoc>

  /** The `credits` a user document holds, an absent field read as 0. */
  function Balance(u: UserDoc): int {
    u.credits.GetOr(0)
  }

  /** The database. Each route handler changes only the collections its
      `modifies` clause names. */
  class Db {
    var users: Users
    var orders: Orders
    var feedback: map<string, FeedbackDoc>

    constructor (users: Users, orders: Orders, feedback: map<string, FeedbackDoc>)
      ensures this.users == users && this.orders == orders && this.feedback == feedback
    {
      this.users := users;
      this.orders := orders;
      this.feedback := feedback;
    }
  }
}
