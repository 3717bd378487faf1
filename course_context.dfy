/** The course context: the course list, the selected course and the request
    state (`loading`, `error`, `message`). Every operation clears `error` and
    `message`, raises `loading`, refuses to run without a stored token, and
    lowers `loading` when it is done, whatever happened. */
module CourseContext {
  import opened Outcomes
  import opened Collections

  datatype CourseInfo = CourseInfo(title: Option<string>, category: Option<string>, price: int)

  type Course = Entity<CourseInfo>

  /** The body of a successful creation: `response.data.course`. */
  datatype CreateReply = CreateReply(course: Course)

  datatype MediaFile = MediaFile(name: string)

  /** One `formData.append(name, value)` entry. */
  datatype FormValue = TextValue(text: string) | FileValue(file: MediaFile)

  type FormData = seq<(string, FormValue)>

  const NoTokenError := "No token available. Please log in."
  const CreatedMessage := "Course Created Successfully!"
  const UpdatedMessage := "Course Updated Successfully!"
  const DeletedMessage := "Course Deleted Successfully!"

  /** The multipart body of a create or update: every data key in key order,
      then each media file under the name `media`. */
  method BuildFormData(fields: seq<(string, string)>, mediaFiles: seq<MediaFile>) returns (form: FormData)
    ensures |form| == |fields| + |mediaFiles|
    ensures forall i :: 0 <= i < |fields| ==> form[i] == (fields[i].0, TextValue(fields[i].1))
    ensures forall j :: 0 <= j < |mediaFiles| ==> form[|fields| + j] == ("media", FileValue(mediaFiles[j]))
  {
    form := [];
    var i := 0;
    while i < |fields|
      invariant 0 <= i <= |fields| && |form| == i
      invariant forall k :: 0 <= k < i ==> form[k] == (fields[k].0, TextValue(fields[k].1))
    {
      form := form + [(fields[i].0, TextValue(fields[i].1))];
      i := i + 1;
    }
    var j := 0;
    while j < |mediaFiles|
      invariant 0 <= j <= |mediaFiles| && |form| == |fields| + j
      invariant forall k :: 0 <= k < |fields| ==> form[k] == (fields[k].0, TextValue(fields[k].1))
      invariant forall k :: 0 <= k < j ==> form[|fields| + k] == ("media", FileValue(mediaFiles[k]))
    {
      form := form + [("media", FileValue(mediaFiles[j]))];
      j := j + 1;
    }
  }

  /** `handleError`: the message a failure leaves in `error`. A server reply
      shows the server's message, a request without reply a connectivity
      message, anything else the error's own message; each falls back to a
      fixed text when its message is missing or empty. */
  function HandleErrorText(err: Failure): (r: string)
    ensures r != ""
    ensures err.ServerReply? && Truthy(err.serverMessage) ==> r == err.serverMessage.value
    ensures err.Other? && Truthy(err.errorMessage) ==> r == err.errorMessage.value
    ensures err.NoReply? ==> r == "No response from the server."
    ensures err.ServerReply? && !Truthy(err.serverMessage) ==> r == "An error occurred."
    ensures err.Other? && !Truthy(err.errorMessage) ==> r == "An unexpected error occurred."
  {
    match err
    case ServerReply(m) => OrElse(m, "An error occurred.")
    case NoReply => "No response from the server."
    case Other(m) => OrElse(m, "An unexpected error occurred.")
  }

  class CourseProvider {
    /** `localStorage.getItem('token')`, read afresh by every operation. */
    var token: Option<string>
    var courses: seq<Course>
    var currentCourse: Option<Course>
    var loading: bool
    var error: Option<string>
    var message: Option<string>

    /** The provider's initial state, before its mount effect runs
        `FetchCourses`. */
    constructor(token: Option<string>)
      ensures this.token == token
      ensures courses == [] && currentCourse == None
      ensures !loading && error == None && message == None
    {
      this.token := token;
      courses := [];
      currentCourse := None;
      loading := false;
      error := None;
      message := None;
    }

    method ResetMessages()
      modifies this`error, this`message
      ensures error == None && message == None
    {
      error := None;
      message := None;
    }

    method HandleError(err: Failure)
      modifies this`error
      ensures error == Some(HandleErrorText(err))
    {
      error := Some(HandleErrorText(err));
    }

    /** Replaces the course list with the server's; `requested` says whether
        the request was sent. */
    method FetchCourses(outcome: Outcome<seq<Course>>) returns (requested: bool)
      modifies this`courses, this`loading, this`error, this`message
      ensures requested == Truthy(token)
      ensures !loading && message == None
      ensures !requested ==> error == Some(NoTokenError) && courses == old(courses)
      ensures requested && outcome.Success? ==> courses == outcome.data && error == None
      ensures requested && outcome.Failed? ==>
        courses == old(courses) && error == Some(HandleErrorText(outcome.failure))
    {
      ResetMessages();
      loading := true;
      if !Truthy(token) {
        error := Some(NoTokenError);
        loading := false;
        return false;
      }
      requested := true;
      match outcome {
        case Success(data) => courses := data;
        case Failed(f) => HandleError(f);
      }
      loading := false;
    }

    /** Selects the course the server returns; the list is not touched. */
    method FetchCourseById(outcome: Outcome<Course>) returns (requested: bool)
      modifies this`currentCourse, this`loading, this`error, this`message
      ensures requested == Truthy(token)
      ensures !loading && message == None
      ensures !requested ==> error == Some(NoTokenError) && currentCourse == old(currentCourse)
      ensures requested && outcome.Success? ==> currentCourse == Some(outcome.data) && error == None
      ensures requested && outcome.Failed? ==>
        currentCourse == old(currentCourse) && error == Some(HandleErrorText(outcome.failure))
    {
      ResetMessages();
      loading := true;
      if !Truthy(token) {
        error := Some(NoTokenError);
        loading := false;
        return false;
      }
      requested := true;
      match outcome {
        case Success(data) => currentCourse := Some(data);
        case Failed(f) => HandleError(f);
      }
      loading := false;
    }

    /** Posts a new course. On success the created course is appended (the
        ghost `appended` is the list at that moment), the success message is
        set, and the list is then refreshed: that refresh clears the message
        again and, when it succeeds, replaces the list with the server's.
        `request` is the body sent, or `None` when nothing was sent. */
    method CreateCourse(courseData: seq<(string, string)>, mediaFiles: seq<MediaFile>,
                        outcome: Outcome<CreateReply>, refresh: Outcome<seq<Course>>)
      returns (request: Option<FormData>, ghost appended: seq<Course>)
      modifies this`courses, this`loading, this`error, this`message
      ensures request.Some? == Truthy(token)
      ensures request.Some? ==> |request.value| == |courseData| + |mediaFiles|
      ensures request.Some? ==> forall i :: 0 <= i < |courseData| ==>
        request.value[i] == (courseData[i].0, TextValue(courseData[i].1))
      ensures request.Some? ==> forall j :: 0 <= j < |mediaFiles| ==>
        request.value[|courseData| + j] == ("media", FileValue(mediaFiles[j]))
      ensures !loading && message == None
      ensures request.None? ==> error == Some(NoTokenError) && courses == old(courses)
      ensures request.Some? && outcome.Failed? ==>
        courses == old(courses) && error == Some(HandleErrorText(outcome.failure))
      ensures request.Some? && outcome.Success? ==>
        appended == old(courses) + [outcome.data.course] &&
        courses == (if refresh.Success? then refresh.data else appended) &&
        error == (if refresh.Success? then None else Some(HandleErrorText(refresh.failure)))
    {
      appended := courses;
      ResetMessages();
      loading := true;
      if !Truthy(token) {
        error := Some(NoTokenError);
        loading := false;
        return None, appended;
      }
      var form := BuildFormData(courseData, mediaFiles);
      request := Some(form);
      match outcome {
        case Success(reply) =>
          courses := courses + [reply.course];
          appended := courses;
          message := Some(CreatedMessage);
          var _ := FetchCourses(refresh);
        case Failed(f) => HandleError(f);
      }
      loading := false;
    }

    /** Puts an update. On success every course whose `_id` is `courseId` is
        replaced by the server's record, in place. */
    method UpdateCourse(courseId: string, updatedData: seq<(string, string)>, mediaFiles: seq<MediaFile>,
                        outcome: Outcome<Course>)
      returns (request: Option<FormData>)
      modifies this`courses, this`loading, this`error, this`message
      ensures request.Some? == Truthy(token)
      ensures request.Some? ==> |request.value| == |updatedData| + |mediaFiles|
      ensures request.Some? ==> forall i :: 0 <= i < |updatedData| ==>
        request.value[i] == (updatedData[i].0, TextValue(updatedData[i].1))
      ensures request.Some? ==> forall j :: 0 <= j < |mediaFiles| ==>
        request.value[|updatedData| + j] == ("media", FileValue(mediaFiles[j]))
      ensures !loading
      ensures request.None? ==> error == Some(NoTokenError) && message == None && courses == old(courses)
      ensures request.Some? && outcome.Success? ==>
        courses == ReplaceById(old(courses), courseId, outcome.data) &&
        error == None && message == Some(UpdatedMessage)
      ensures request.Some? && outcome.Failed? ==>
        courses == old(courses) && error == Some(HandleErrorText(outcome.failure)) && message == None
    {
      ResetMessages();
      loading := true;
      if !Truthy(token) {
        error := Some(NoTokenError);
        loading := false;
        return None;
      }
      var form := BuildFormData(updatedData, mediaFiles);
      request := Some(form);
      match outcome {
        case Success(updated) =>
          courses := ReplaceById(courses, courseId, updated);
          message := Some(UpdatedMessage);
        case Failed(f) => HandleError(f);
      }
      loading := false;
    }

    /** Deletes a course. On success exactly the courses whose `_id` is
        `courseId` are dropped, the rest keep their order. */
    method DeleteCourse(courseId: string, outcome: Outcome<()>) returns (requested: bool)
      modifies this`courses, this`loading, this`error, this`message
      ensures requested == Truthy(token)
      ensures !loading
      ensures !requested ==> error == Some(NoTokenError) && message == None && courses == old(courses)
      ensures requested && outcome.Success? ==>
        courses == RemoveById(old(courses), courseId) && error == None && message == Some(DeletedMessage)
      ensures requested && outcome.Failed? ==>
        courses == old(courses) && error == Some(HandleErrorText(outcome.failure)) && message == None
    {
      ResetMessages();
      loading := true;
      if !Truthy(token) {
        error := Some(NoTokenError);
        loading := false;
        return false;
      }
      requested := true;
      match outcome {
        case Success(_) =>
          courses := RemoveById(courses, courseId);
          message := Some(DeletedMessage);
        case Failed(f) => HandleError(f);
      }
      loading := false;
    }
  }
}
