/** The course document (models/Course.js): its shape, the schema's bounds
    and defaults, and the collection that holds the documents. */
module CourseModel {
  import opened Common
  import Seqs

  /** A lecture sub-document; `id` is the `_id` Mongoose gives it. */
  datatype Lecture = Lecture(id: string, title: string, description: string, video: Media)

  datatype Course = Course(
    id: CourseId,
    title: string,
    description: string,
    lectures: seq<Lecture>,
    poster: Media,
    views: int,
    numOfVideos: int,
    category: string,
    createdBy: string,
    createdAt: int)

  const MinTitleLength := 4
  const MaxTitleLength := 80
  const MinDescriptionLength := 20

  /** Every field of a lecture is required. */
  function LectureValid(l: Lecture): (ok: bool)
    ensures ok <==> |l.title| > 0 && |l.description| > 0 && |l.video.publicId| > 0 && |l.video.url| > 0
  {
    l.title != "" && l.description != "" && l.video.publicId != "" && l.video.url != ""
  }

  /** The schema's validators: required fields refuse the empty string, and
      the title and description have length bounds in UTF-16 code units
      (which already rule out the empty string); every lecture must be
      valid. Views and the video
      count carry no validator. */
  function CourseValid(c: Course): (ok: bool)
    ensures ok ==> MinTitleLength <= JsLength(c.title) <= MaxTitleLength
                   && JsLength(c.description) >= MinDescriptionLength
    ensures ok ==> forall k :: 0 <= k < |c.lectures| ==> LectureValid(c.lectures[k])
  {
    && c.title != "" && MinTitleLength <= JsLength(c.title) <= MaxTitleLength
    && c.description != "" && JsLength(c.description) >= MinDescriptionLength
    && (forall k :: 0 <= k < |c.lectures| ==> LectureValid(c.lectures[k]))
    && c.poster.publicId != "" && c.poster.url != ""
    && c.category != ""
    && c.createdBy != ""
  }

  /** A document as `Course.create` builds it: no lectures, and the defaults
      `views = 0` and `numOfVideos = 0`. */
  function NewCourse(id: CourseId, title: string, description: string, category: string,
                     createdBy: string, poster: Media, now: int): (c: Course)
    ensures c.lectures == [] && c.views == 0 && c.numOfVideos == 0
    ensures c.numOfVideos == |c.lectures|
  {
    Course(id, title, description, [], poster, 0, 0, category, createdBy, now)
  }

  /** A valid course stays valid when a valid lecture is appended, when
      lectures are dropped, and whatever its counters become: the edits of
      `addLecture`, `deleteLecture` and `getCourseLectures` never make a
      valid course fail its validators. */
  lemma LectureEditsKeepCourseValid(c: Course, l: Lecture, keep: Lecture -> bool, views: int, count: int)
    requires CourseValid(c)
    ensures LectureValid(l) ==> CourseValid(c.(lectures := c.lectures + [l], numOfVideos := count))
    ensures CourseValid(c.(lectures := Seqs.Filter(c.lectures, keep), numOfVideos := count))
    ensures CourseValid(c.(views := views))
  {
  }

  /** A title of two characters outside the Basic Multilingual Plane is
      four code units long, within the title bounds. */
  lemma TwoAstralCharactersMakeATitle()
    ensures MinTitleLength <= JsLength("\U{1F600}\U{1F600}") <= MaxTitleLength
  {
  }

  function WithCourseId(id: CourseId): Course -> bool {
    (c: Course) => c.id == id
  }

  function WithLectureId(id: string): Lecture -> bool {
    (l: Lecture) => l.id == id
  }

  function NotLecture(id: string): Lecture -> bool {
    (l: Lecture) => l.id != id
  }

  /** Every course's `numOfVideos` is the length of its lecture list. */
  predicate VideoCountsAgree(docs: seq<Course>) {
    forall k :: 0 <= k < |docs| ==> docs[k].numOfVideos == |docs[k].lectures|
  }

  /** The courses collection. */
  class CourseCollection {
    var docs: seq<Course>

    constructor ()
      ensures docs == []
    {
      docs := [];
    }
  }
}
