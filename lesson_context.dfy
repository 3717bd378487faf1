/** The lesson context: the lesson list, `loading` and `error`. Unlike the
    course context it never checks for a token (the request goes out with
    whatever is stored), never clears `error`, and has no success message:
    an error stays until a later failure overwrites it. */
module LessonContext {
  import opened Outcomes
  import opened Collections

  type Fields = map<string, string>

  type Lesson = Entity<Fields>

  const FetchLessonsError := "Failed to fetch lessons"
  const FetchLessonError := "Failed to fetch lesson"
  const CreateLessonError := "Failed to create lesson"
  const UpdateLessonError := "Failed to update lesson"
  const DeleteLessonError := "Failed to delete lesson"
  const CompletionError := "Failed to update lesson completion status"
  const ProgressError := "Failed to fetch course progress"
  const CompletedStudentsError := "Failed to fetch completed students"

  /** `error.response?.data?.message || fallback`: the server's message when
      it sent a non-empty one, the operation's fixed text otherwise. */
  function ErrorText(err: Failure, fallback: string): (r: string)
    ensures err.ServerReply? && Truthy(err.serverMessage) ==> r == err.serverMessage.value
    ensures !err.ServerReply? ==> r == fallback
    ensures r == fallback || Truthy(ServerMessage(err))
  {
    OrElse(ServerMessage(err), fallback)
  }

  /** The error `markLessonAsCompleted` runs into after a successful POST: it
      reads `response`, which it never declared, and the ReferenceError lands
      in its own catch block. */
  const UndeclaredResponse := Other(Some("response is not defined"))

  class LessonProvider {
    var lessons: seq<Lesson>
    /** Initialised to an empty list and never given a setter. */
    const currentLesson: seq<Lesson>
    var loading: bool
    var error: Option<string>

    constructor()
      ensures lessons == [] && currentLesson == [] && !loading && error == None
    {
      lessons := [];
      currentLesson := [];
      loading := false;
      error := None;
    }

    /** Replaces the lesson list with the course's lessons. */
    method FetchLessonsByCourseId(outcome: Outcome<seq<Lesson>>)
      modifies this`lessons, this`loading, this`error
      ensures !loading
      ensures outcome.Success? ==> lessons == outcome.data && error == old(error)
      ensures outcome.Failed? ==>
        lessons == old(lessons) && error == Some(ErrorText(outcome.failure, FetchLessonsError))
    {
      loading := true;
      match outcome {
        case Success(data) => lessons := data;
        case Failed(f) => error := Some(ErrorText(f, FetchLessonsError));
      }
      loading := false;
    }

    /** Returns the lesson the server sends, or nothing on failure. */
    method FetchLessonById(outcome: Outcome<Lesson>) returns (r: Option<Lesson>)
      modifies this`loading, this`error
      ensures !loading
      ensures outcome.Success? ==> r == Some(outcome.data) && error == old(error)
      ensures outcome.Failed? ==> r == None && error == Some(ErrorText(outcome.failure, FetchLessonError))
    {
      loading := true;
      match outcome {
        case Success(data) => r := Some(data);
        case Failed(f) =>
          error := Some(ErrorText(f, FetchLessonError));
          r := None;
      }
      loading := false;
    }

    /** Appends the created lesson (`response.data`) at the end. */
    method CreateLesson(outcome: Outcome<Lesson>)
      modifies this`lessons, this`loading, this`error
      ensures !loading
      ensures outcome.Success? ==> lessons == old(lessons) + [outcome.data] && error == old(error)
      ensures outcome.Failed? ==>
        lessons == old(lessons) && error == Some(ErrorText(outcome.failure, CreateLessonError))
    {
      loading := true;
      match outcome {
        case Success(data) => lessons := lessons + [data];
        case Failed(f) => error := Some(ErrorText(f, CreateLessonError));
      }
      loading := false;
    }

    /** Replaces every lesson whose `_id` is `lessonId` by the server's record. */
    method UpdateLesson(lessonId: string, outcome: Outcome<Lesson>)
      modifies this`lessons, this`loading, this`error
      ensures !loading
      ensures outcome.Success? ==>
        lessons == ReplaceById(old(lessons), lessonId, outcome.data) && error == old(error)
      ensures outcome.Failed? ==>
        lessons == old(lessons) && error == Some(ErrorText(outcome.failure, UpdateLessonError))
    {
      loading := true;
      match outcome {
        case Success(data) => lessons := ReplaceById(lessons, lessonId, data);
        case Failed(f) => error := Some(ErrorText(f, UpdateLessonError));
      }
      loading := false;
    }

    /** Drops every lesson whose `_id` is `lessonId`. */
    method DeleteLesson(lessonId: string, outcome: Outcome<()>)
      modifies this`lessons, this`loading, this`error
      ensures !loading
      ensures outcome.Success? ==> lessons == RemoveById(old(lessons), lessonId) && error == old(error)
      ensures outcome.Failed? ==>
        lessons == old(lessons) && error == Some(ErrorText(outcome.failure, DeleteLessonError))
    {
      loading := true;
      match outcome {
        case Success(_) => lessons := RemoveById(lessons, lessonId);
        case Failed(f) => error := Some(ErrorText(f, DeleteLessonError));
      }
      loading := false;
    }

    /** Posts a completion. Whatever the POST does, the operation ends in its
        catch block: after a success it fails on the undeclared `response`.
        So it never returns data and always leaves an error. */
    method MarkLessonAsCompleted<T>(outcome: Outcome<T>) returns (r: Option<T>)
      modifies this`loading, this`error
      ensures !loading && r == None
      ensures outcome.Success? ==> error == Some(CompletionError)
      ensures outcome.Failed? ==> error == Some(ErrorText(outcome.failure, CompletionError))
    {
      loading := true;
      var thrown: Failure;
      match outcome {
        case Success(_) => thrown := UndeclaredResponse;
        case Failed(f) => thrown := f;
      }
      error := Some(ErrorText(thrown, CompletionError));
      r := None;
      loading := false;
    }

    /** Returns the course's progress report; the lesson list is not touched. */
    method FetchCourseProgress<P>(outcome: Outcome<P>) returns (r: Option<P>)
      modifies this`loading, this`error
      ensures !loading
      ensures outcome.Success? ==> r == Some(outcome.data) && error == old(error)
      ensures outcome.Failed? ==> r == None && error == Some(ErrorText(outcome.failure, ProgressError))
    {
      loading := true;
      match outcome {
        case Success(data) => r := Some(data);
        case Failed(f) =>
          error := Some(ErrorText(f, ProgressError));
          r := None;
      }
      loading := false;
    }

    /** Returns the students who completed a lesson; the lesson list is not
        touched. */
    method FetchCompletedStudents<S>(outcome: Outcome<S>) returns (r: Option<S>)
      modifies this`loading, this`error
      ensures !loading
      ensures outcome.Success? ==> r == Some(outcome.data) && error == old(error)
      ensures outcome.Failed? ==>
        r == None && error == Some(ErrorText(outcome.failure, CompletedStudentsError))
    {
      loading := true;
      match outcome {
        case Success(data) => r := Some(data);
        case Failed(f) =>
          error := Some(ErrorText(f, CompletedStudentsError));
          r := None;
      }
      loading := false;
    }
  }
}
