/** The quiz context: the course's quizzes and their count, the selected quiz
    with its submissions, the quiz grade and `loading`. It keeps no error:
    some operations log a failure and carry on, others rethrow it to the
    caller, and only some of them touch `loading`. */
module QuizContext {
  import opened Outcomes
  import opened Collections

  type Fields = map<string, string>

  type Submission = Entity<Fields>

  /** A quiz record; `submissions` is missing when the server sends none. */
  datatype QuizInfo = QuizInfo(submissions: Option<seq<Submission>>)

  type Quiz = Entity<QuizInfo>

  /** `response.data` of the course's quiz list. */
  datatype QuizPage = QuizPage(quizzes: seq<Quiz>, count: int)

  /** `response.data` of a single quiz; `quiz` can be missing. */
  datatype QuizReply = QuizReply(quiz: Option<Quiz>)

  /** `response.data` of grading: the computed score. */
  datatype GradeReply = GradeReply(score: int)

  /** `currentQuiz`: the initial empty object `{}`, `null` after a failed
      fetch, or a quiz. */
  datatype QuizSelection = EmptyObject | Null | Selected(quiz: Quiz)

  /** `quizSubmissions`: the initial empty object `{}` (which has no
      `filter`), or a list. */
  datatype SubmissionList = NotAList | Listed(items: seq<Submission>)

  const MissingQuizId := Other(Some("Quiz ID is required"))

  class QuizProvider {
    var quizzes: seq<Quiz>
    var totalQuizCount: int
    var totalQuizGrade: int
    var loading: bool
    var quizSubmissions: SubmissionList
    var currentQuiz: QuizSelection

    constructor()
      ensures quizzes == [] && totalQuizCount == 0 && totalQuizGrade == 0 && !loading
      ensures quizSubmissions == NotAList && currentQuiz == EmptyObject
    {
      quizzes := [];
      totalQuizCount := 0;
      totalQuizGrade := 0;
      loading := false;
      quizSubmissions := NotAList;
      currentQuiz := EmptyObject;
    }

    /** Loads the course's quizzes and their count. A missing (falsy) course id
        sends nothing; it and any failure are only logged. */
    method FetchQuizzesByCourseId(courseId: Option<string>, outcome: Outcome<QuizPage>)
      returns (requested: bool)
      modifies this`quizzes, this`totalQuizCount, this`loading
      ensures requested == Truthy(courseId)
      ensures !loading
      ensures requested && outcome.Success? ==>
        quizzes == outcome.data.quizzes && totalQuizCount == outcome.data.count
      ensures !(requested && outcome.Success?) ==>
        quizzes == old(quizzes) && totalQuizCount == old(totalQuizCount)
    {
      loading := true;
      requested := Truthy(courseId);
      if requested && outcome.Success? {
        quizzes := outcome.data.quizzes;
        totalQuizCount := outcome.data.count;
      }
      loading := false;
    }

    /** Loads one quiz and its submissions. A missing id rejects at once,
        before `loading` is touched. A reply without a quiz fails on reading
        its submissions and, like a failed request, ends with no quiz
        selected and an empty submission list; neither is rethrown. */
    method FetchQuizById(quizId: Option<string>, outcome: Outcome<QuizReply>)
      returns (r: Settled<Option<QuizReply>>)
      modifies this`loading, this`quizSubmissions, this`currentQuiz
      ensures !Truthy(quizId) ==>
        r == Rejected(MissingQuizId) && loading == old(loading) &&
        quizSubmissions == old(quizSubmissions) && currentQuiz == old(currentQuiz)
      ensures Truthy(quizId) ==> !loading
      ensures Truthy(quizId) && outcome.Success? && outcome.data.quiz.Some? ==>
        r == Resolved(Some(outcome.data)) &&
        currentQuiz == Selected(outcome.data.quiz.value) &&
        quizSubmissions == Listed(outcome.data.quiz.value.data.submissions.GetOr([]))
      ensures Truthy(quizId) && !(outcome.Success? && outcome.data.quiz.Some?) ==>
        r == Resolved(None) && currentQuiz == Null && quizSubmissions == Listed([])
    {
      if !Truthy(quizId) {
        return Rejected(MissingQuizId);
      }
      loading := true;
      match outcome {
        case Success(reply) =>
          currentQuiz := if reply.quiz.Some? then Selected(reply.quiz.value) else EmptyObject;
          if reply.quiz.Some? {
            quizSubmissions := Listed(reply.quiz.value.data.submissions.GetOr([]));
            r := Resolved(Some(reply));
          } else {
            // reading `submissions` of a missing quiz throws; the catch block runs
            currentQuiz := Null;
            quizSubmissions := Listed([]);
            r := Resolved(None);
          }
        case Failed(_) =>
          currentQuiz := Null;
          quizSubmissions := Listed([]);
          r := Resolved(None);
      }
      loading := false;
    }

    /** Appends the created quiz; a failure is rethrown. */
    method CreateQuiz(outcome: Outcome<Quiz>) returns (r: Settled<Quiz>)
      modifies this`quizzes
      ensures outcome.Success? ==> quizzes == old(quizzes) + [outcome.data] && r == Resolved(outcome.data)
      ensures outcome.Failed? ==> quizzes == old(quizzes) && r == Rejected(outcome.failure)
    {
      match outcome {
        case Success(quiz) =>
          quizzes := quizzes + [quiz];
          r := Resolved(quiz);
        case Failed(f) => r := Rejected(f);
      }
    }

    /** Replaces every quiz whose `_id` is `quizId`; a failure is rethrown. */
    method UpdateQuiz(quizId: string, outcome: Outcome<Quiz>) returns (r: Settled<Quiz>)
      modifies this`quizzes
      ensures outcome.Success? ==>
        quizzes == ReplaceById(old(quizzes), quizId, outcome.data) && r == Resolved(outcome.data)
      ensures outcome.Failed? ==> quizzes == old(quizzes) && r == Rejected(outcome.failure)
    {
      match outcome {
        case Success(quiz) =>
          quizzes := ReplaceById(quizzes, quizId, quiz);
          r := Resolved(quiz);
        case Failed(f) => r := Rejected(f);
      }
    }

    /** Drops every quiz whose `_id` is `quizId`; a failure is only logged. */
    method DeleteQuiz(quizId: string, outcome: Outcome<()>)
      modifies this`quizzes
      ensures quizzes == if outcome.Success? then RemoveById(old(quizzes), quizId) else old(quizzes)
    {
      if outcome.Success? {
        quizzes := RemoveById(quizzes, quizId);
      }
    }

    /** Stores the graded score as the quiz grade; a failure is rethrown. */
    method UpdateQuizGrade(outcome: Outcome<GradeReply>) returns (r: Settled<GradeReply>)
      modifies this`totalQuizGrade
      ensures outcome.Success? ==> totalQuizGrade == outcome.data.score && r == Resolved(outcome.data)
      ensures outcome.Failed? ==> totalQuizGrade == old(totalQuizGrade) && r == Rejected(outcome.failure)
    {
      match outcome {
        case Success(reply) =>
          totalQuizGrade := reply.score;
          r := Resolved(reply);
        case Failed(f) => r := Rejected(f);
      }
    }

    /** Loads the course's total grade (`response.data.totalGrade`, possibly
        missing); a missing grade and a failure both give 0. */
    method FetchTotalQuizGrade(outcome: Outcome<Option<int>>)
      modifies this`totalQuizGrade, this`loading
      ensures !loading
      ensures totalQuizGrade == if outcome.Success? then outcome.data.GetOr(0) else 0
    {
      loading := true;
      match outcome {
        case Success(grade) => totalQuizGrade := grade.GetOr(0);
        case Failed(_) => totalQuizGrade := 0;
      }
      loading := false;
    }

    /** Drops the submissions whose `_id` is `submissionId`. A failed request,
        and a submission list that is still the initial `{}` (whose missing
        `filter` throws), are only logged. */
    method DeleteSubmission(submissionId: string, outcome: Outcome<()>)
      modifies this`quizSubmissions, this`loading
      ensures !loading
      ensures quizSubmissions ==
        if outcome.Success? && old(quizSubmissions).Listed?
        then Listed(RemoveById(old(quizSubmissions).items, submissionId))
        else old(quizSubmissions)
    {
      loading := true;
      if outcome.Success? && quizSubmissions.Listed? {
        quizSubmissions := Listed(RemoveById(quizSubmissions.items, submissionId));
      }
      loading := false;
    }
  }
}
