/** The course handlers of controllers/courseController.js that check input
    or edit a course document: creation, the lecture list with its view
    counter and video count, and the recomputation of the latest Stats row
    whenever the courses collection changes. */
module CourseController {
  import opened Common
  import opened Seqs
  import opened CourseModel
  import opened Stats

  const FillAllFields := "Please fill all the fields"
  const CourseNotFound := "Course not found"

  /** `createCourse`. The four text fields are required (400). The poster
      file is read before the upload, so a request without one throws; the
      document then gets the schema's defaults, and one that fails the
      schema's validators is not stored. */
  method CreateCourse(courses: CourseCollection, title: string, description: string, category: string,
                      createdBy: string, hasFile: bool, upload: Option<Media>, newId: CourseId, now: int)
    returns (r: Result<CourseId>)
    modifies courses
    ensures title == "" || description == "" || category == "" || createdBy == "" ==>
              r == Err(HttpError(400, FillAllFields)) && courses.docs == old(courses.docs)
    ensures title != "" && description != "" && category != "" && createdBy != "" ==>
              if !hasFile then r.Err? && r.failure.Thrown? && courses.docs == old(courses.docs)
              else match upload
                case None => r == Err(ServiceFailed) && courses.docs == old(courses.docs)
                case Some(poster) =>
                  var c := NewCourse(newId, title, description, category, createdBy, poster, now);
                  if CourseValid(c) then r == Ok(newId) && courses.docs == old(courses.docs) + [c]
                  else r == Err(ValidationFailed) && courses.docs == old(courses.docs)
    ensures VideoCountsAgree(old(courses.docs)) ==> VideoCountsAgree(courses.docs)
  {
    if title == "" || description == "" || category == "" || createdBy == "" {
      return Err(HttpError(400, FillAllFields));
    }
    if !hasFile {
      return Err(Thrown("Cannot read properties of undefined (reading 'originalname')"));
    }
    if upload.None? {
      return Err(ServiceFailed);
    }
    var course := NewCourse(newId, title, description, category, createdBy, upload.value, now);
    if !CourseValid(course) {
      return Err(ValidationFailed);
    }
    courses.docs := courses.docs + [course];
    r := Ok(newId);
  }

  /** `getCourseLectures`. A malformed id makes the lookup throw and an
      unknown course is a 404, both with no change; otherwise the view
      counter goes up by exactly one and the lectures are returned as they
      are. */
  method GetCourseLectures(courses: CourseCollection, id: CourseId, isObjectId: string -> bool)
    returns (r: Result<seq<Lecture>>)
    modifies courses
    ensures CastFails(id, isObjectId) ==> r == Err(Thrown(CastToObjectId)) && courses.docs == old(courses.docs)
    ensures !CastFails(id, isObjectId) && First(old(courses.docs), WithCourseId(id)).None? ==>
              r == Err(HttpError(404, CourseNotFound)) && courses.docs == old(courses.docs)
    ensures var i := First(old(courses.docs), WithCourseId(id));
            !CastFails(id, isObjectId) && i.Some? ==>
              var c := old(courses.docs)[i.value];
              && r == Ok(c.lectures)
              && courses.docs == old(courses.docs)[i.value := c.(views := c.views + 1)]
    ensures VideoCountsAgree(old(courses.docs)) ==> VideoCountsAgree(courses.docs)
  {
    if CastFails(id, isObjectId) {
      return Err(Thrown(CastToObjectId));
    }
    var found := First(courses.docs, WithCourseId(id));
    if found.None? {
      return Err(HttpError(404, CourseNotFound));
    }
    var course := courses.docs[found.value];
    course := course.(views := course.views + 1);
    courses.docs := courses.docs[found.value := course];  // course.save()
    r := Ok(course.lectures);
  }

  /** `addLecture`. A malformed id makes the lookup throw and an unknown
      course is a 404, both with no change. The video file is read
      before the upload, so a request without one throws. Otherwise one
      lecture goes at the end of the list and `numOfVideos` becomes the new
      length; a lecture that fails the schema's validators is not stored. */
  method AddLecture(courses: CourseCollection, id: CourseId, title: string, description: string,
                    hasFile: bool, upload: Option<Media>, lectureId: string, isObjectId: string -> bool)
    returns (r: Result<()>)
    modifies courses
    ensures CastFails(id, isObjectId) ==> r == Err(Thrown(CastToObjectId)) && courses.docs == old(courses.docs)
    ensures !CastFails(id, isObjectId) && First(old(courses.docs), WithCourseId(id)).None? ==>
              r == Err(HttpError(404, CourseNotFound)) && courses.docs == old(courses.docs)
    ensures var i := First(old(courses.docs), WithCourseId(id));
            !CastFails(id, isObjectId) && i.Some? ==>
              var c := old(courses.docs)[i.value];
              if !hasFile then r.Err? && r.failure.Thrown? && courses.docs == old(courses.docs)
              else match upload
                case None => r == Err(ServiceFailed) && courses.docs == old(courses.docs)
                case Some(video) =>
                  var l := Lecture(lectureId, title, description, video);
                  if LectureValid(l) then
                    && r == Ok(())
                    && courses.docs == old(courses.docs)[i.value := c.(lectures := c.lectures + [l],
                                                                      numOfVideos := |c.lectures| + 1)]
                  else r == Err(ValidationFailed) && courses.docs == old(courses.docs)
    ensures VideoCountsAgree(old(courses.docs)) ==> VideoCountsAgree(courses.docs)
  {
    if CastFails(id, isObjectId) {
      return Err(Thrown(CastToObjectId));
    }
    var found := First(courses.docs, WithCourseId(id));
    if found.None? {
      return Err(HttpError(404, CourseNotFound));
    }
    if !hasFile {
      return Err(Thrown("Cannot read properties of undefined (reading 'originalname')"));
    }
    if upload.None? {
      return Err(ServiceFailed);
    }
    var course := courses.docs[found.value];
    var lecture := Lecture(lectureId, title, description, upload.value);
    course := course.(lectures := course.lectures + [lecture]);
    course := course.(numOfVideos := |course.lectures|);
    if !LectureValid(lecture) {
      return Err(ValidationFailed);
    }
    courses.docs := courses.docs[found.value := course];  // course.save()
    r := Ok(());
  }

  /** `deleteLecture`. A malformed course id makes the lookup throw and an
      unknown course is a 404, both with no change. A lecture id the course
      does not hold makes the handler throw before anything is saved. The
      lecture's video is then destroyed on the media host (`destroyed`
      says whether that succeeded); a failure ends the request with no
      change. Otherwise every lecture with that id is dropped, the others
      keep their order, and `numOfVideos` becomes the new length. */
  method DeleteLecture(courses: CourseCollection, courseId: CourseId, lectureId: string,
                       destroyed: bool, isObjectId: string -> bool)
    returns (r: Result<()>)
    modifies courses
    ensures CastFails(courseId, isObjectId) ==> r == Err(Thrown(CastToObjectId)) && courses.docs == old(courses.docs)
    ensures !CastFails(courseId, isObjectId) && First(old(courses.docs), WithCourseId(courseId)).None? ==>
              r == Err(HttpError(404, CourseNotFound)) && courses.docs == old(courses.docs)
    ensures var i := First(old(courses.docs), WithCourseId(courseId));
            !CastFails(courseId, isObjectId) && i.Some? && First(old(courses.docs)[i.value].lectures, WithLectureId(lectureId)).None? ==>
              r.Err? && r.failure.Thrown? && courses.docs == old(courses.docs)
    ensures var i := First(old(courses.docs), WithCourseId(courseId));
            !CastFails(courseId, isObjectId) && i.Some? && First(old(courses.docs)[i.value].lectures, WithLectureId(lectureId)).Some?
            && !destroyed ==>
              r == Err(ServiceFailed) && courses.docs == old(courses.docs)
    ensures var i := First(old(courses.docs), WithCourseId(courseId));
            !CastFails(courseId, isObjectId) && i.Some? && First(old(courses.docs)[i.value].lectures, WithLectureId(lectureId)).Some?
            && destroyed ==>
              var c := old(courses.docs)[i.value];
              var kept := Filter(c.lectures, NotLecture(lectureId));
              && r == Ok(())
              && courses.docs == old(courses.docs)[i.value := c.(lectures := kept, numOfVideos := |kept|)]
              && |kept| < |c.lectures|
    ensures VideoCountsAgree(old(courses.docs)) ==> VideoCountsAgree(courses.docs)
  {
    if CastFails(courseId, isObjectId) {
      return Err(Thrown(CastToObjectId));
    }
    var found := First(courses.docs, WithCourseId(courseId));
    if found.None? {
      return Err(HttpError(404, CourseNotFound));
    }
    var course := courses.docs[found.value];
    var lecture := First(course.lectures, WithLectureId(lectureId));
    if lecture.None? {
      return Err(Thrown("Cannot read properties of undefined (reading 'video')"));
    }
    if !destroyed {
      return Err(ServiceFailed);
    }
    FilterDropsMatch(course.lectures, lectureId, lecture.value);
    course := course.(lectures := Filter(course.lectures, NotLecture(lectureId)));
    course := course.(numOfVideos := |course.lectures|);
    courses.docs := courses.docs[found.value := course];  // course.save()
    r := Ok(());
  }

  /** Dropping the lectures with an id the list holds shortens the list. */
  lemma {:induction false} FilterDropsMatch(lectures: seq<Lecture>, lectureId: string, k: nat)
    requires k < |lectures| && lectures[k].id == lectureId
    ensures |Filter(lectures, NotLecture(lectureId))| < |lectures|
  {
    if k > 0 {
      FilterDropsMatch(lectures[1..], lectureId, k - 1);
    }
  }

  /** After deletion no lecture with the id is left, and every other
      lecture is still there. */
  lemma RemovesExactlyThatLecture(lectures: seq<Lecture>, lectureId: string)
    ensures First(Filter(lectures, NotLecture(lectureId)), WithLectureId(lectureId)).None?
    ensures forall k :: 0 <= k < |lectures| && lectures[k].id != lectureId ==>
              lectures[k] in Filter(lectures, NotLecture(lectureId))
  {
    var kept := Filter(lectures, NotLecture(lectureId));
    forall k | 0 <= k < |kept|
      ensures !WithLectureId(lectureId)(kept[k])
    {
      assert NotLecture(lectureId)(kept[k]);
    }
    forall k | 0 <= k < |lectures| && lectures[k].id != lectureId
      ensures lectures[k] in kept
    {
      assert NotLecture(lectureId)(lectures[k]);
    }
  }

  /** The views of all courses together. */
  function SumViews(docs: seq<Course>): int {
    if docs == [] then 0 else SumViews(docs[..|docs| - 1]) + docs[|docs| - 1].views
  }

  /** One more view on one course raises the total by exactly one. */
  lemma {:induction false} OneViewAddsOne(docs: seq<Course>, i: nat)
    requires i < |docs|
    ensures SumViews(docs[i := docs[i].(views := docs[i].views + 1)]) == SumViews(docs) + 1
  {
    var after := docs[i := docs[i].(views := docs[i].views + 1)];
    var last := |docs| - 1;
    if i < last {
      assert after[..last] == docs[..last][i := docs[i].(views := docs[i].views + 1)];
      OneViewAddsOne(docs[..last], i);
    } else {
      assert after[..last] == docs[..last];
    }
  }

  /** Adding or deleting a lecture does not change the total views. */
  lemma {:induction false} SumViewsIgnoresLectures(docs: seq<Course>, i: nat, c: Course)
    requires i < |docs| && c.views == docs[i].views
    ensures SumViews(docs[i := c]) == SumViews(docs)
  {
    var last := |docs| - 1;
    if i < last {
      assert docs[i := c][..last] == docs[..last][i := c];
      SumViewsIgnoresLectures(docs[..last], i, c);
    } else {
      assert docs[i := c][..last] == docs[..last];
    }
  }

  /** The accumulator loop of the `Course.watch` change handler. */
  method TotalViews(docs: seq<Course>) returns (totalViews: int)
    ensures totalViews == SumViews(docs)
  {
    totalViews := 0;
    for i := 0 to |docs|
      invariant totalViews == SumViews(docs[..i])
    {
      assert docs[..i + 1][..i] == docs[..i];
      totalViews := totalViews + docs[i].views;
    }
    assert docs[..|docs|] == docs;
  }

  /** The `Course.watch` change handler: the latest Stats row takes the
      views of all courses, stamped now. Without any Stats row the handler
      throws and nothing changes. */
  method OnCourseChange(stats: StatsCollection, courses: CourseCollection, now: int) returns (r: Result<()>)
    modifies stats
    ensures |old(stats.rows)| == 0 ==> r.Err? && r.failure.Thrown? && stats.rows == old(stats.rows)
    ensures |old(stats.rows)| > 0 ==>
              r == Ok(()) && stats.rows == WithViews(old(stats.rows), SumViews(courses.docs), now)
  {
    var totalViews := TotalViews(courses.docs);
    if |stats.rows| == 0 {
      return Err(Thrown("Cannot set properties of undefined (setting 'views')"));
    }
    var latest := |stats.rows| - 1;
    var row := stats.rows[latest];
    row := row.(views := totalViews);
    row := row.(createdAt := Some(now));
    stats.rows := stats.rows[latest := row];  // stats[0].save()
    r := Ok(());
  }
}
