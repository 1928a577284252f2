/** The courses router (app/routers/courses.py): the public listing with its
    rating aggregation and minimum-rating filter, the single-course view,
    the teacher's and the student's course lists, and the teacher-only
    create and owner-guarded update. */
module Courses {
  import opened Basics
  import opened Tables

  /** A `courses` row; price and duration are the numbers the database holds. */
  datatype CourseRow = CourseRow(id: string, teacherId: string, title: string, description: string,
                                 price: real, durationHours: real, category: string, level: string,
                                 thumbnailUrl: Option<string>, isPublished: bool, createdAt: int)

  /** The `course_id, rating` columns of a `course_reviews` row. */
  datatype ReviewRow = ReviewRow(courseId: string, rating: int)

  /** The four enrollment columns a student's course carries (`EnrollmentData`). */
  datatype EnrollmentData = EnrollmentData(id: string, enrolledAt: int, progressPercentage: int,
                                           completedAt: Option<int>)

  /** An `enrollments` row joined with its course (`select("*, courses(*)")`). */
  datatype EnrollmentRow = EnrollmentRow(data: EnrollmentData, course: Option<CourseRow>)

  /** A course as the routes return it (app/schemas.py, `Course`); fields a
      route does not set keep the schema defaults (0.0, 0, None). */
  datatype CourseView = CourseView(row: CourseRow, teacher: Option<Teacher>, rating: real,
                                   reviewCount: nat, enrollment: Option<EnrollmentData>)

  /** An entry of `ratings_map`: `{"total": ..., "count": ...}`. */
  datatype Tally = Tally(total: int, count: nat)


  // ---------------------------------------------------------------------------
  // Which filters list_courses hands to the database

  /** The filters of the course query: always published only and the price
      range; a title pattern, category and level only when requested. */
  datatype CourseQuery = CourseQuery(publishedOnly: bool, titlePattern: Option<string>,
                                     category: Option<string>, level: Option<string>,
                                     minPrice: real, maxPrice: real)

  /** A category or level filter is applied when the value is set, not
      empty and not "All" (lines 29-33). */
  predicate Selects(v: Option<string>) {
    v.Some? && v.value != "" && v.value != "All"
  }

  /** Lines 24-35. */
  function ListQuery(search: Option<string>, category: Option<string>, level: Option<string>,
                     minPrice: real, maxPrice: real): (q: CourseQuery)
    ensures q.publishedOnly && q.minPrice == minPrice && q.maxPrice == maxPrice
    ensures q.titlePattern.Some? <==> search.Some? && search.value != ""
    ensures q.titlePattern.Some? ==> q.titlePattern.value == "%" + search.value + "%"
    ensures q.category.Some? <==> Selects(category)
    ensures q.category.Some? ==> q.category == category
    ensures q.level.Some? <==> Selects(level)
    ensures q.level.Some? ==> q.level == level
  {
    CourseQuery(true,
                if search.Some? && search.value != "" then Some("%" + search.value + "%") else None,
                if Selects(category) then category else None,
                if Selects(level) then level else None,
                minPrice, maxPrice)
  }

  /** With the parameters' defaults (no search, "All", "All") only the
      published and price filters remain. */
  lemma DefaultQueryFiltersNothingElse(minPrice: real, maxPrice: real)
    ensures var q := ListQuery(None, Some("All"), Some("All"), minPrice, maxPrice);
            q.titlePattern.None? && q.category.None? && q.level.None?
  {
  }

  // ---------------------------------------------------------------------------
  // Ratings

  /** The sum of the ratings of the reviews of course `cid`. */
  function RatingTotal(reviews: seq<ReviewRow>, cid: string): int {
    if |reviews| == 0 then 0
    else
      var last := reviews[|reviews| - 1];
      RatingTotal(reviews[..|reviews| - 1], cid) + (if last.courseId == cid then last.rating else 0)
  }

  /** The number of reviews of course `cid`. */
  function RatingCount(reviews: seq<ReviewRow>, cid: string): (n: nat)
    ensures n <= |reviews|
    ensures n == 0 <==> forall i :: 0 <= i < |reviews| ==> reviews[i].courseId != cid
  {
    if |reviews| == 0 then 0
    else
      var last := reviews[|reviews| - 1];
      var n := RatingCount(reviews[..|reviews| - 1], cid) + (if last.courseId == cid then 1 else 0);
      assert forall i :: 0 <= i < |reviews| - 1 ==> reviews[..|reviews| - 1][i] == reviews[i];
      n
  }

  /** `total / count if count > 0 else 0`. */
  function Average(total: int, count: nat): (avg: real)
    ensures count > 0 ==> avg * count as real == total as real
    ensures count == 0 ==> avg == 0.0
  {
    if count > 0 then total as real / count as real else 0.0
  }

  /** The minimum-rating filter in integers: a course with reviews is dropped
      iff its total is below `minRating` times its count, and one without
      reviews iff `minRating` is positive. */
  lemma DroppedInIntegers(total: int, count: nat, minRating: int)
    ensures Average(total, count) < minRating as real
            <==> (if count > 0 then total < minRating * count else 0 < minRating)
  {
    if count > 0 {
      var avg := Average(total, count);
      var c := count as real;
      assert avg * c == total as real;
      assert (minRating * count) as real == minRating as real * c;
      if avg < minRating as real {
        assert avg * c < minRating as real * c;
      }
      if total < minRating * count {
        assert avg * c < minRating as real * c;
      }
    }
  }

  predicate Dropped(c: CourseRow, reviews: seq<ReviewRow>, minRating: int) {
    Average(RatingTotal(reviews, c.id), RatingCount(reviews, c.id)) < minRating as real
  }

  /** A listed course: its teacher from the teachers fetched, its average
      rating and its review count. */
  function ListedView(c: CourseRow, teachers: seq<UserRow>, reviews: seq<ReviewRow>): CourseView {
    CourseView(c, TeacherById(teachers, c.teacherId),
               Average(RatingTotal(reviews, c.id), RatingCount(reviews, c.id)),
               RatingCount(reviews, c.id), None)
  }

  /** The fetched courses without the dropped ones, in fetched order. */
  function Listed(courses: seq<CourseRow>, teachers: seq<UserRow>, reviews: seq<ReviewRow>,
                  minRating: int): seq<CourseView>
  {
    if |courses| == 0 then []
    else
      var last := courses[|courses| - 1];
      Listed(courses[..|courses| - 1], teachers, reviews, minRating)
      + (if Dropped(last, reviews, minRating) then [] else [ListedView(last, teachers, reviews)])
  }

  /** The listing of a concatenation is the concatenation of the listings:
      the filter keeps the relative order of the courses. */
  lemma {:induction false} ListedAppend(a: seq<CourseRow>, b: seq<CourseRow>, teachers: seq<UserRow>,
                                        reviews: seq<ReviewRow>, minRating: int)
    ensures Listed(a + b, teachers, reviews, minRating)
            == Listed(a, teachers, reviews, minRating) + Listed(b, teachers, reviews, minRating)
  {
    if |b| == 0 {
      assert a + b == a;
    } else {
      var init := b[..|b| - 1];
      ListedAppend(a, init, teachers, reviews, minRating);
      assert (a + b)[..|a + b| - 1] == a + init;
      assert (a + b)[|a + b| - 1] == b[|b| - 1];
    }
  }

  /** A view is listed iff it is the view of a fetched course that is not dropped. */
  lemma {:induction false} ListedMembers(courses: seq<CourseRow>, teachers: seq<UserRow>,
                                         reviews: seq<ReviewRow>, minRating: int, v: CourseView)
    ensures v in Listed(courses, teachers, reviews, minRating)
            <==> exists i :: 0 <= i < |courses| && !Dropped(courses[i], reviews, minRating)
                             && v == ListedView(courses[i], teachers, reviews)
  {
    if |courses| > 0 {
      var init := courses[..|courses| - 1];
      ListedMembers(init, teachers, reviews, minRating, v);
      assert forall i :: 0 <= i < |init| ==> init[i] == courses[i];
    }
  }

  /** `get_course`'s rating and review count agree with the listing's when
      its ratings are those of the listing's reviews of that course. */
  lemma {:induction false} SingleCourseRatingAgrees(reviews: seq<ReviewRow>, cid: string)
    ensures Sum(RatingsOf(reviews, cid)) == RatingTotal(reviews, cid)
    ensures |RatingsOf(reviews, cid)| == RatingCount(reviews, cid)
  {
    if |reviews| > 0 {
      var init := reviews[..|reviews| - 1];
      SingleCourseRatingAgrees(init, cid);
      var last := reviews[|reviews| - 1];
      if last.courseId == cid {
        SumAppend(RatingsOf(init, cid), last.rating);
      } else {
        assert RatingsOf(init, cid) + [] == RatingsOf(init, cid);
      }
    }
  }

  /** `[r["rating"] for r in r_res.data]` for the reviews of course `cid`. */
  function RatingsOf(reviews: seq<ReviewRow>, cid: string): seq<int> {
    if |reviews| == 0 then []
    else
      var last := reviews[|reviews| - 1];
      RatingsOf(reviews[..|reviews| - 1], cid) + (if last.courseId == cid then [last.rating] else [])
  }

  function Sum(s: seq<int>): int {
    if |s| == 0 then 0 else s[0] + Sum(s[1..])
  }

  lemma {:induction false} SumAppend(s: seq<int>, x: int)
    ensures Sum(s + [x]) == Sum(s) + x
  {
    if |s| > 0 {
      assert (s + [x])[1..] == s[1..] + [x];
      SumAppend(s[1..], x);
    }
  }

  // ---------------------------------------------------------------------------
  // The listing

  /** The loop of lines 60-65. */
  method TallyRatings(reviews: seq<ReviewRow>) returns (ratings: map<string, Tally>)
    ensures forall cid :: GetOr(ratings, cid, Tally(0, 0))
                          == Tally(RatingTotal(reviews, cid), RatingCount(reviews, cid))
  {
    ratings := map[];
    var i := 0;
    while i < |reviews|
      invariant 0 <= i <= |reviews|
      invariant forall cid :: GetOr(ratings, cid, Tally(0, 0))
                              == Tally(RatingTotal(reviews[..i], cid), RatingCount(reviews[..i], cid))
    {
      var r := reviews[i];
      if r.courseId !in ratings {
        ratings := ratings[r.courseId := Tally(0, 0)];
      }
      var t := ratings[r.courseId];
      ratings := ratings[r.courseId := Tally(t.total + r.rating, t.count + 1)];
      assert reviews[..i + 1][..i] == reviews[..i];
      i := i + 1;
    }
    assert reviews[..i] == reviews;
  }

  /** `list_courses` after the query (lines 39-83): the fetched courses,
      minus those whose average rating is below `minRating`, in fetched
      order, each with its teacher, average rating and review count. */
  method ListCourses(courses: seq<CourseRow>, teachers: seq<UserRow>, reviews: seq<ReviewRow>,
                     minRating: int)
    returns (r: seq<CourseView>)
    ensures r == Listed(courses, teachers, reviews, minRating)
  {
    if |courses| == 0 {
      return [];
    }
    var ratings := TallyRatings(reviews);
    r := [];
    var k := 0;
    while k < |courses|
      invariant 0 <= k <= |courses|
      invariant r == Listed(courses[..k], teachers, reviews, minRating)
    {
      var c := courses[k];
      var info := GetOr(ratings, c.id, Tally(0, 0));
      var avg := Average(info.total, info.count);
      assert courses[..k + 1][..k] == courses[..k];
      if avg < minRating as real {
        k := k + 1;
        continue;
      }
      r := r + [CourseView(c, TeacherById(teachers, c.teacherId), avg, info.count, None)];
      k := k + 1;
    }
    assert courses[..k] == courses;
  }

  /** `get_course` (lines 174-195): 404 for a missing course, otherwise the
      course with its teacher, the mean of its ratings (0 without any) and
      their number. */
  function GetCourse(course: Option<CourseRow>, users: seq<UserRow>, ratings: seq<int>)
    : (r: Response<CourseView>)
    ensures course.None? <==> r == Raised(HttpError(NOT_FOUND, "Course not found"))
    ensures course.Some? ==> r.Ok? && r.value.row == course.value
                             && r.value.reviewCount == |ratings|
                             && r.value.rating * |ratings| as real == Sum(ratings) as real
                             && (ratings == [] ==> r.value.rating == 0.0)
                             && r.value.enrollment.None?
                             && (r.value.teacher.Some? <==> FirstUserWithId(users, course.value.teacherId).Some?)
                             && (r.value.teacher.Some? ==>
                                   r.value.teacher.value == TeacherOf(FirstUserWithId(users, course.value.teacherId).value))
  {
    match course
    case None => Raised(HttpError(NOT_FOUND, "Course not found"))
    case Some(c) =>
      var teacher := match FirstUserWithId(users, c.teacherId)
                     case None => None
                     case Some(u) => Some(TeacherOf(u));
      Ok(CourseView(c, teacher, Average(Sum(ratings), |ratings|), |ratings|, None))
  }

  /** A student's course: its teacher and the enrollment columns. */
  function StudentView(e: EnrollmentRow, users: seq<UserRow>): CourseView
    requires e.course.Some?
  {
    var c := e.course.value;
    var teacher := match FirstUserWithId(users, c.teacherId)
                   case None => None
                   case Some(u) => Some(TeacherOf(u));
    CourseView(c, teacher, 0.0, 0, Some(e.data))
  }

  /** The enrollments that carry a course, as student courses, in order. */
  function Enrolled(enrollments: seq<EnrollmentRow>, users: seq<UserRow>): seq<CourseView> {
    if |enrollments| == 0 then []
    else
      var last := enrollments[|enrollments| - 1];
      Enrolled(enrollments[..|enrollments| - 1], users)
      + (if last.course.None? then [] else [StudentView(last, users)])
  }

  /** Each returned course comes from an enrollment with a course, carries
      exactly that enrollment's columns, and every such enrollment gives one. */
  lemma {:induction false} EnrolledMembers(enrollments: seq<EnrollmentRow>, users: seq<UserRow>,
                                           v: CourseView)
    ensures v in Enrolled(enrollments, users)
            <==> exists i :: 0 <= i < |enrollments| && enrollments[i].course.Some?
                             && v.row == enrollments[i].course.value
                             && v.enrollment == Some(enrollments[i].data)
                             && v == StudentView(enrollments[i], users)
  {
    if |enrollments| > 0 {
      var init := enrollments[..|enrollments| - 1];
      EnrolledMembers(init, users, v);
      assert forall i :: 0 <= i < |init| ==> init[i] == enrollments[i];
    }
  }

  /** `list_student_courses` (lines 124-172). */
  method ListStudentCourses(enrollments: seq<EnrollmentRow>, users: seq<UserRow>)
    returns (r: seq<CourseView>)
    ensures r == Enrolled(enrollments, users)
  {
    if |enrollments| == 0 {
      return [];
    }
    r := [];
    var i := 0;
    while i < |enrollments|
      invariant 0 <= i <= |enrollments|
      invariant r == Enrolled(enrollments[..i], users)
    {
      var item := enrollments[i];
      assert enrollments[..i + 1][..i] == enrollments[..i];
      i := i + 1;
      if item.course.None? {
        continue;
      }
      var c := item.course.value;
      var teacher := match FirstUserWithId(users, c.teacherId)
                     case None => None
                     case Some(u) => Some(TeacherOf(u));
      r := r + [CourseView(c, teacher, 0.0, 0, Some(item.data))];
    }
    assert enrollments[..i] == enrollments;
  }

  /** `list_teacher_courses` (lines 85-122): a failed course fetch is a 500;
      otherwise every course carries the same teacher information, the
      caller's own row or, when that fetch raises, the caller's id alone. */
  method ListTeacherCourses(userId: string, courses: Fetch<seq<CourseRow>>, teacherRow: Fetch<Teacher>)
    returns (r: Response<seq<CourseView>>)
    ensures courses.FetchRaised? ==>
              r == Raised(HttpError(SERVER_ERROR, "Error fetching teacher courses: " + courses.message))
    ensures courses.Fetched? ==>
              var info := if teacherRow.Fetched? then teacherRow.data else Teacher(userId, None, None, None);
              r.Ok? && |r.value| == |courses.data|
              && forall i :: 0 <= i < |r.value| ==>
                   r.value[i] == CourseView(courses.data[i], Some(info), 0.0, 0, None)
  {
    if courses.FetchRaised? {
      return Raised(HttpError(SERVER_ERROR, "Error fetching teacher courses: " + courses.message));
    }
    var info := if teacherRow.Fetched? then teacherRow.data else Teacher(userId, None, None, None);
    var out: seq<CourseView> := [];
    var i := 0;
    while i < |courses.data|
      invariant 0 <= i <= |courses.data|
      invariant |out| == i
      invariant forall k :: 0 <= k < i ==> out[k] == CourseView(courses.data[k], Some(info), 0.0, 0, None)
    {
      out := out + [CourseView(courses.data[i], Some(info), 0.0, 0, None)];
      i := i + 1;
    }
    r := Ok(out);
  }

  // ---------------------------------------------------------------------------
  // Create and update

  /** `CourseCreate`: the body of a new course. */
  datatype CourseInput = CourseInput(title: string, description: string, price: real,
                                     durationHours: real, category: string, level: string,
                                     thumbnailUrl: Option<string>, isPublished: bool)

  /** `CourseUpdate` after `{k: v ... if v is not None}`: None drops a field. */
  datatype CoursePatch = CoursePatch(title: Option<string>, description: Option<string>,
                                     price: Option<real>, durationHours: Option<real>,
                                     category: Option<string>, level: Option<string>,
                                     thumbnailUrl: Option<string>, isPublished: Option<bool>)

  predicate EmptyPatch(p: CoursePatch) {
    p.title.None? && p.description.None? && p.price.None? && p.durationHours.None?
    && p.category.None? && p.level.None? && p.thumbnailUrl.None? && p.isPublished.None?
  }

  function Pick<T>(v: Option<T>, current: T): T {
    if v.Some? then v.value else current
  }

  function PatchedCourse(c: CourseRow, p: CoursePatch): (r: CourseRow)
    ensures r.id == c.id && r.teacherId == c.teacherId && r.createdAt == c.createdAt
    ensures EmptyPatch(p) ==> r == c
  {
    c.(title := Pick(p.title, c.title), description := Pick(p.description, c.description),
       price := Pick(p.price, c.price), durationHours := Pick(p.durationHours, c.durationHours),
       category := Pick(p.category, c.category), level := Pick(p.level, c.level),
       thumbnailUrl := if p.thumbnailUrl.Some? then p.thumbnailUrl else c.thumbnailUrl,
       isPublished := Pick(p.isPublished, c.isPublished))
  }

  /** A patch sets each field it names and keeps each field it leaves out;
      applying it twice is applying it once. */
  lemma PatchedCourseFields(c: CourseRow, p: CoursePatch)
    ensures var r := PatchedCourse(c, p);
            (p.title.Some? ==> r.title == p.title.value) && (p.title.None? ==> r.title == c.title)
            && (p.description.Some? ==> r.description == p.description.value)
            && (p.description.None? ==> r.description == c.description)
            && (p.price.Some? ==> r.price == p.price.value) && (p.price.None? ==> r.price == c.price)
            && (p.durationHours.Some? ==> r.durationHours == p.durationHours.value)
            && (p.durationHours.None? ==> r.durationHours == c.durationHours)
            && (p.category.Some? ==> r.category == p.category.value)
            && (p.category.None? ==> r.category == c.category)
            && (p.level.Some? ==> r.level == p.level.value) && (p.level.None? ==> r.level == c.level)
            && (p.thumbnailUrl.Some? ==> r.thumbnailUrl == p.thumbnailUrl)
            && (p.thumbnailUrl.None? ==> r.thumbnailUrl == c.thumbnailUrl)
            && (p.isPublished.Some? ==> r.isPublished == p.isPublished.value)
            && (p.isPublished.None? ==> r.isPublished == c.isPublished)
            && PatchedCourse(r, p) == r
  {
  }

  function FirstCourseWithId(courses: seq<CourseRow>, id: string): (r: Option<CourseRow>)
    ensures r.None? <==> forall i :: 0 <= i < |courses| ==> courses[i].id != id
    ensures r.Some? ==> exists i :: 0 <= i < |courses| && courses[i] == r.value && courses[i].id == id
                          && forall j :: 0 <= j < i ==> courses[j].id != id
  {
    if |courses| == 0 then None
    else if courses[0].id == id then Some(courses[0])
    else
      var r := FirstCourseWithId(courses[1..], id);
      assert forall i :: 0 < i < |courses| ==> courses[1..][i - 1] == courses[i];
      r
  }

  function PatchCourses(courses: seq<CourseRow>, id: string, p: CoursePatch): (r: seq<CourseRow>)
    ensures |r| == |courses|
  {
    seq(|courses|, i requires 0 <= i < |courses| =>
      if courses[i].id == id then PatchedCourse(courses[i], p) else courses[i])
  }

  lemma {:induction false} PatchedFirstCourse(courses: seq<CourseRow>, id: string, p: CoursePatch)
    requires FirstCourseWithId(courses, id).Some?
    ensures FirstCourseWithId(PatchCourses(courses, id, p), id)
            == Some(PatchedCourse(FirstCourseWithId(courses, id).value, p))
  {
    if courses[0].id != id {
      assert PatchCourses(courses[1..], id, p) == PatchCourses(courses, id, p)[1..];
      PatchedFirstCourse(courses[1..], id, p);
    }
  }

  function TeacherOfUser(users: seq<UserRow>, id: string): Option<Teacher> {
    match FirstUserWithId(users, id)
    case None => None
    case Some(u) => Some(TeacherOf(u))
  }

  /** The `courses` table and the `users` rows the routes read teachers from. */
  class CoursesDb {
    var courses: seq<CourseRow>
    var users: seq<UserRow>

    constructor (courses0: seq<CourseRow>, users0: seq<UserRow>)
      ensures courses == courses0 && users == users0
    {
      courses, users := courses0, users0;
    }

    /** `create_course` (lines 197-219): the stored course belongs to the
        caller whatever the body says; an empty insert result is a 400 and
        a failing insert escapes the handler. */
    method CreateCourse(input: CourseInput, userId: string, newId: string, createdAt: int, write: Write)
      returns (r: Response<CourseView>)
      modifies this`courses
      ensures var row := CourseRow(newId, userId, input.title, input.description, input.price,
                                   input.durationHours, input.category, input.level,
                                   input.thumbnailUrl, input.isPublished, createdAt);
              match write
              case Stored =>
                courses == old(courses) + [row]
                && r == Ok(CourseView(row, TeacherOfUser(users, userId), 0.0, 0, None))
              case NoData =>
                courses == old(courses) && r == Raised(HttpError(BAD_REQUEST, "Could not create course"))
              case WriteFailed(m) =>
                courses == old(courses) && r == Crashed(m)
    {
      match write {
        case NoData =>
          return Raised(HttpError(BAD_REQUEST, "Could not create course"));
        case WriteFailed(m) =>
          return Crashed(m);
        case Stored =>
          var row := CourseRow(newId, userId, input.title, input.description, input.price,
                               input.durationHours, input.category, input.level,
                               input.thumbnailUrl, input.isPublished, createdAt);
          courses := courses + [row];
          r := Ok(CourseView(row, TeacherOfUser(users, userId), 0.0, 0, None));
      }
    }

    /** `update_course` (lines 221-251): 404, then 403, then 400 for a patch
        without fields, each before any write. `write` is the outcome of the
        update at line 243, outside any `try`: its exception escapes, and so
        does the `IndexError` of `response.data[0]` on an empty result. */
    method UpdateCourse(courseId: string, userId: string, patch: CoursePatch, write: Write)
      returns (r: Response<CourseView>)
      modifies this`courses
      ensures var found := FirstCourseWithId(old(courses), courseId);
              (found.None? ==> courses == old(courses)
                               && r == Raised(HttpError(NOT_FOUND, "Course not found")))
              && (found.Some? && found.value.teacherId != userId ==>
                    courses == old(courses)
                    && r == Raised(HttpError(FORBIDDEN, "Not authorized to update this course")))
              && (found.Some? && found.value.teacherId == userId && EmptyPatch(patch) ==>
                    courses == old(courses) && r == Raised(HttpError(BAD_REQUEST, "No data to update")))
              && (found.Some? && found.value.teacherId == userId && !EmptyPatch(patch) ==>
                    match write
                      case Stored =>
                        courses == PatchCourses(old(courses), courseId, patch)
                        && r == Ok(CourseView(PatchedCourse(found.value, patch), TeacherOfUser(users, userId),
                                              0.0, 0, None))
                      case NoData => courses == old(courses) && r == Crashed(INDEX_ERROR)
                      case WriteFailed(m) => courses == old(courses) && r == Crashed(m))
    {
      var existing := FirstCourseWithId(courses, courseId);
      if existing.None? {
        return Raised(HttpError(NOT_FOUND, "Course not found"));
      }
      if existing.value.teacherId != userId {
        return Raised(HttpError(FORBIDDEN, "Not authorized to update this course"));
      }
      if EmptyPatch(patch) {
        return Raised(HttpError(BAD_REQUEST, "No data to update"));
      }
      match write {
        case NoData =>
          return Crashed(INDEX_ERROR);
        case WriteFailed(m) =>
          return Crashed(m);
        case Stored =>
      }
      courses := PatchCourses(courses, courseId, patch);
      PatchedFirstCourse(old(courses), courseId, patch);
      var updated := FirstCourseWithId(courses, courseId);
      r := Ok(CourseView(updated.value, TeacherOfUser(users, userId), 0.0, 0, None));
    }
  }
}
