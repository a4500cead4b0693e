/** The non-AI part of `createFeedback` (lib/actions/general.action.ts): the
    default record for a short transcript, the transcript statistics, and the
    choice of the feedback document's id. */
module Feedback {
  import opened Base
  import opened Docs
  import opened Js

  datatype Message = Message(role: string, content: string)

  /** The structured assessment the AI model returns; opaque here. */
  datatype Assessment = Assessment(
    totalScore: int,
    categoryScores: seq<CategoryScore>,
    strengths: seq<string>,
    areasForImprovement: seq<string>,
    finalAssessment: string)

  /** `x || 'Unknown'`. */
  function OrUnknown(s: Option<string>): string {
    OrElse(s, "Unknown")
  }

  predicate IsAnswer(m: Message) {
    m.role == "user"
  }

  predicate IsQuestion(m: Message) {
    m.role == "system" || m.role == "assistant"
  }

  /** `transcript.filter(msg => msg.role === 'user')`. */
  function Answers(t: seq<Message>): (a: seq<Message>)
    ensures |a| <= |t|
    ensures forall m :: m in a ==> m in t && IsAnswer(m)
    ensures forall m :: m in t && IsAnswer(m) ==> m in a
    ensures forall m :: multiset(a)[m] == if IsAnswer(m) then multiset(t)[m] else 0
  {
    if t == [] then []
    else
      assert t == [t[0]] + t[1..];
      (if IsAnswer(t[0]) then [t[0]] else []) + Answers(t[1..])
  }

  /** `transcript.filter(msg => msg.role === 'system' || msg.role === 'assistant')`. */
  function Questions(t: seq<Message>): (q: seq<Message>)
    ensures |q| <= |t|
    ensures forall m :: m in q ==> m in t && IsQuestion(m)
    ensures forall m :: m in t && IsQuestion(m) ==> m in q
    ensures forall m :: multiset(q)[m] == if IsQuestion(m) then multiset(t)[m] else 0
  {
    if t == [] then []
    else
      assert t == [t[0]] + t[1..];
      (if IsQuestion(t[0]) then [t[0]] else []) + Questions(t[1..])
  }

  /** No message is both an answer and a question, so the two counts together
      never exceed the transcript's length. */
  lemma {:induction false} CountsFitTranscript(t: seq<Message>)
    ensures |Answers(t)| + |Questions(t)| <= |t|
  {
    if t != [] {
      CountsFitTranscript(t[1..]);
    }
  }

  /** `.map(msg => msg.content.length)`, lengths in UTF-16 code units. */
  function Lengths(a: seq<Message>): (ls: seq<nat>)
    ensures |ls| == |a|
    ensures forall i :: 0 <= i < |a| ==> ls[i] == Utf16Length(a[i].content)
  {
    if a == [] then [] else [Utf16Length(a[0].content)] + Lengths(a[1..])
  }

  /** `.reduce((a, b) => a + b, 0)`: no entry exceeds the total. */
  function Sum(ls: seq<nat>): (total: nat)
    ensures forall i :: 0 <= i < |ls| ==> ls[i] <= total
  {
    if ls == [] then 0 else ls[0] + Sum(ls[1..])
  }

  /** `r` is the mean `sum / n` rounded to the nearest integer, halves rounded up. */
  predicate IsRoundedMean(r: nat, sum: nat, n: nat) {
    2 * n * r <= 2 * sum + n < 2 * n * (r + 1)
  }

  /** `Math.round(sum / n)` for a non-negative mean. */
  function RoundedMean(sum: nat, n: nat): (r: nat)
    requires n > 0
    ensures IsRoundedMean(r, sum, n)
  {
    (2 * sum + n) / (2 * n)
  }

  /** `responseLength`: the rounded mean length of the user's answers, 0 when there are none. */
  function ResponseLength(t: seq<Message>): (r: nat)
    ensures Answers(t) == [] ==> r == 0
    ensures Answers(t) != [] ==> IsRoundedMean(r, Sum(Lengths(Answers(t))), |Answers(t)|)
  {
    var a := Answers(t);
    if |a| > 0 then RoundedMean(Sum(Lengths(a)), |a|) else 0
  }

  lemma {:induction false} SumAtMost(ls: seq<nat>, bound: nat)
    requires forall i :: 0 <= i < |ls| ==> ls[i] <= bound
    ensures Sum(ls) <= |ls| * bound
  {
    if ls != [] {
      SumAtMost(ls[1..], bound);
    }
  }

  lemma {:induction false} SumAtLeast(ls: seq<nat>, bound: nat)
    requires forall i :: 0 <= i < |ls| ==> ls[i] >= bound
    ensures Sum(ls) >= |ls| * bound
  {
    if ls != [] {
      SumAtLeast(ls[1..], bound);
    }
  }

  lemma MulMonotone(k: nat, a: int, b: int)
    requires a <= b
    ensures k * a <= k * b
  {
    assert k * b - k * a == k * (b - a);
  }

  /** A rounded mean of values within [lo, hi] is within [lo, hi]. */
  lemma RoundedMeanWithin(sum: nat, n: nat, lo: nat, hi: nat)
    requires n > 0 && n * lo <= sum <= n * hi
    ensures lo <= RoundedMean(sum, n) <= hi
  {
    var r := RoundedMean(sum, n);
    if r > hi {
      MulMonotone(2 * n, hi + 1, r);
    }
    if r < lo {
      MulMonotone(2 * n, r + 1, lo);
    }
  }

  /** The response length lies between the shortest and the longest answer:
      if every answer's length is within [lo, hi], so is the rounded mean. */
  lemma ResponseLengthWithin(t: seq<Message>, lo: nat, hi: nat)
    requires forall m :: m in Answers(t) ==> lo <= Utf16Length(m.content) <= hi
    requires Answers(t) != []
    ensures lo <= ResponseLength(t) <= hi
  {
    var a := Answers(t);
    var ls := Lengths(a);
    assert forall i :: 0 <= i < |ls| ==> lo <= ls[i] <= hi by {
      forall i | 0 <= i < |ls| ensures lo <= ls[i] <= hi {
        assert a[i] in a;
      }
    }
    SumAtMost(ls, hi);
    SumAtLeast(ls, lo);
    RoundedMeanWithin(Sum(ls), |a|, lo, hi);
  }

  /** `engagementLevel`: 'High' from 10 messages, 'Medium' from 5, else 'Low'. */
  function EngagementLevel(length: nat): (e: Engagement)
    ensures e == High <==> length >= 10
    ensures e == Medium <==> 5 <= length < 10
    ensures e == Low <==> length < 5
  {
    if length >= 10 then High else if length >= 5 then Medium else Low
  }

  function Rank(e: Engagement): nat {
    match e
    case Low => 0
    case Medium => 1
    case High => 2
  }

  /** A longer transcript never has a lower engagement level. */
  lemma EngagementMonotone(shorter: nat, longer: nat)
    requires shorter <= longer
    ensures Rank(EngagementLevel(shorter)) <= Rank(EngagementLevel(longer))
  {
  }

  /** `!transcript || transcript.length < 3`. */
  predicate IsShort(transcript: Option<seq<Message>>) {
    transcript.None? || |transcript.value| < 3
  }

  /** The five categories of a short transcript, each scored 0. */
  function ZeroScores(): (cs: seq<CategoryScore>)
    ensures |cs| == 5 && forall c :: c in cs ==> c.score == 0
  {
    [ CategoryScore("Professionalism", 0, "No professionalism detected."),
      CategoryScore("Confidence", 0, "No confidence detected."),
      CategoryScore("Speaking Style", 0, "No speaking style detected."),
      CategoryScore("Technical Knowledge", 0, "No technical knowledge detected."),
      CategoryScore("Understanding of Subject", 0, "No subject understanding detected.") ]
  }

  /** The record written for a short transcript. */
  function DefaultFeedback(interviewId: string, userId: string, kind: Option<string>, level: Option<string>): (f: FeedbackDoc)
    ensures f.interviewId == interviewId && f.userId == userId
    ensures f.kind == OrUnknown(kind) && f.level == OrUnknown(level)
    ensures f.totalScore == 0
    ensures |f.categoryScores| == 5 && forall c :: c in f.categoryScores ==> c.score == 0
    ensures f.strengths == []
    ensures f.areasForImprovement == ["Try next time with more preparation."]
    ensures f.finalAssessment == "Interview was ended too quickly. Please try again with more preparation."
    ensures f.numQuestionsAnswered == 0 && f.numQuestionsAsked == 0
    ensures f.engagementLevel == Low && f.responseLength == 0
  {
    FeedbackDoc(
      interviewId, userId, OrUnknown(kind), OrUnknown(level),
      0,
      ZeroScores(),
      [],
      ["Try next time with more preparation."],
      "Interview was ended too quickly. Please try again with more preparation.",
      0, 0, Low, 0)
  }

  /** The record written for a transcript the AI model assessed: the scores
      come from the assessment, the statistics from the transcript. */
  function AssessedFeedback(interviewId: string, userId: string, t: seq<Message>,
                            kind: Option<string>, level: Option<string>, a: Assessment): (f: FeedbackDoc)
    ensures f.interviewId == interviewId && f.userId == userId
    ensures f.kind == OrUnknown(kind) && f.level == OrUnknown(level)
    ensures f.totalScore == a.totalScore && f.categoryScores == a.categoryScores && f.strengths == a.strengths
    ensures f.areasForImprovement == a.areasForImprovement && f.finalAssessment == a.finalAssessment
    ensures f.numQuestionsAnswered == |Answers(t)| && f.numQuestionsAsked == |Questions(t)|
    ensures f.numQuestionsAnswered + f.numQuestionsAsked <= |t|
    ensures f.engagementLevel == EngagementLevel(|t|) && f.responseLength == ResponseLength(t)
  {
    CountsFitTranscript(t);
    FeedbackDoc(
      interviewId, userId, OrUnknown(kind), OrUnknown(level),
      a.totalScore, a.categoryScores, a.strengths, a.areasForImprovement, a.finalAssessment,
      |Answers(t)|, |Questions(t)|, EngagementLevel(|t|), ResponseLength(t))
  }

  /** The id of the document written: the given `feedbackId` when truthy,
      else the id Firestore generates (`autoId`). */
  function FeedbackRef(feedbackId: Option<string>, autoId: string): (id: string)
    ensures Truthy(feedbackId) ==> id == feedbackId.value
    ensures !Truthy(feedbackId) ==> id == autoId
  {
    if Truthy(feedbackId) then feedbackId.value else autoId
  }

  /** `createFeedback`. `assessment` is what the AI call returns (`None` when it
      throws, which the catch answers with `{ success: false }`); it is not
      consulted for a short transcript. */
  method CreateFeedback(db: Db, interviewId: string, userId: string, transcript: Option<seq<Message>>,
                        feedbackId: Option<string>, kind: Option<string>, level: Option<string>,
                        assessment: Option<Assessment>, autoId: string)
    returns (success: bool, id: Option<string>)
    modifies db`feedback
    ensures success <==> IsShort(transcript) || assessment.Some?
    ensures !success ==> id == None && db.feedback == old(db.feedback)
    ensures success ==> id == Some(FeedbackRef(feedbackId, autoId))
    ensures success && Truthy(feedbackId) ==> id == feedbackId
    ensures success && IsShort(transcript) ==>
      db.feedback == old(db.feedback)[id.value := DefaultFeedback(interviewId, userId, kind, level)]
    ensures success && !IsShort(transcript) ==>
      db.feedback == old(db.feedback)[id.value := AssessedFeedback(interviewId, userId, transcript.value, kind, level, assessment.value)]
  {
    if IsShort(transcript) {
      var feedback := DefaultFeedback(interviewId, userId, kind, level);
      var ref := FeedbackRef(feedbackId, autoId);
      db.feedback := db.feedback[ref := feedback];
      return true, Some(ref);
    }
    if assessment.None? {
      return false, None;
    }
    var feedback := AssessedFeedback(interviewId, userId, transcript.value, kind, level, assessment.value);
    var ref := FeedbackRef(feedbackId, autoId);
    db.feedback := db.feedback[ref := feedback];
    return true, Some(ref);
  }
}
