/**
 * Tier 2: how many students in scope meet the course target on one course
 * outcome, and the attainment level (0..3) that share earns.
 */
module CourseTier {
  import opened Wrappers
  import opened Sequences
  import opened Snapshot
  import StudentTier

  datatype CourseCOAttainment = CourseCOAttainment(
    coId: Id,
    attainmentLevel: int,
    percentageMeetingTarget: real,
    studentsMeetingTarget: nat,
    totalStudents: nat)

  /**
   * The students in scope: those of the section when a (non-empty) section
   * id is given, otherwise every student of the course's batch.
   */
  function ScopeStudents(db: Db, course: Course, sectionId: Option<Id>): (r: seq<Student>)
    ensures forall s :: s in r <==>
              s in db.students &&
              if sectionId.Some? && sectionId.value != "" then s.sectionId == sectionId
              else s.batchId == course.batchId
  {
    if sectionId.Some? && sectionId.value != "" then
      FilterMembers(db.students, (s: Student) => s.sectionId == sectionId);
      Filter(db.students, (s: Student) => s.sectionId == sectionId)
    else
      FilterMembers(db.students, (s: Student) => s.batchId == course.batchId);
      Filter(db.students, (s: Student) => s.batchId == course.batchId)
  }

  /** Tier 1 attainment of each student, in order. */
  function Attainments(db: Db, students: seq<Student>, courseId: Id, coId: Id): seq<real>
  {
    seq(|students|, k requires 0 <= k < |students| =>
      StudentTier.StudentCOAttainment(db, students[k].id, courseId, coId))
  }

  /** How many attainments reach the target. */
  function CountMeeting(attainments: seq<real>, target: real): nat
  {
    |Filter(attainments, (a: real) => a >= target)|
  }

  /** The attainment level, checked from the top threshold down. */
  function AttainmentLevel(pct: real, level1: real, level2: real, level3: real): (level: int)
    ensures 0 <= level <= 3
    ensures pct >= level3 ==> level == 3
  {
    if pct >= level3 then 3
    else if pct >= level2 then 2
    else if pct >= level1 then 1
    else 0
  }

  /** Course–CO attainment over the scope, or CourseNotFound. */
  function CourseCOAttainmentOf(db: Db, coId: Id, courseId: Id, sectionId: Option<Id>)
    : (r: Result<CourseCOAttainment, Error>)
    ensures r.Err? <==> forall c :: c in db.courses ==> c.id != courseId
    ensures r.Err? ==> r.error == CourseNotFound
    ensures r.Ok? ==> r.value.coId == coId && 0 <= r.value.attainmentLevel <= 3
    ensures r.Ok? ==> r.value.studentsMeetingTarget <= r.value.totalStudents
    ensures r.Ok? ==> 0.0 <= r.value.percentageMeetingTarget <= 100.0
    ensures r.Ok? ==>
      r.value.totalStudents == |ScopeStudents(db, FindCourse(db.courses, courseId).value, sectionId)|
    ensures r.Ok? && r.value.totalStudents == 0 ==> r.value == CourseCOAttainment(coId, 0, 0.0, 0, 0)
    ensures r.Ok? && r.value.totalStudents > 0 ==>
      var course := FindCourse(db.courses, courseId).value;
      var scope := ScopeStudents(db, course, sectionId);
      r.value.studentsMeetingTarget == CountMeeting(Attainments(db, scope, courseId, coId), course.target) &&
      r.value.percentageMeetingTarget ==
        Percentage(r.value.studentsMeetingTarget as real, r.value.totalStudents as real) &&
      r.value.attainmentLevel ==
        AttainmentLevel(r.value.percentageMeetingTarget, course.level1, course.level2, course.level3)
  {
    match FindCourse(db.courses, courseId)
    case None => Err(CourseNotFound)
    case Some(course) =>
      var students := ScopeStudents(db, course, sectionId);
      if |students| == 0 then Ok(CourseCOAttainment(coId, 0, 0.0, 0, 0))
      else
        var meeting := CountMeeting(Attainments(db, students, courseId, coId), course.target);
        var pct := Percentage(meeting as real, |students| as real);
        PercentageBounds(meeting as real, |students| as real);
        Ok(CourseCOAttainment(coId, AttainmentLevel(pct, course.level1, course.level2, course.level3),
                              pct, meeting, |students|))
  }

  /** `calculateCourseCOAttainment`: collects each student's Tier 1 attainment in a loop. */
  method CalculateCourseCOAttainment(db: Db, coId: Id, courseId: Id, sectionId: Option<Id>)
    returns (r: Result<CourseCOAttainment, Error>)
    ensures r == CourseCOAttainmentOf(db, coId, courseId, sectionId)
  {
    var found := FindCourse(db.courses, courseId);
    if found.None? {
      return Err(CourseNotFound);
    }
    var course := found.value;
    var students := ScopeStudents(db, course, sectionId);
    if |students| == 0 {
      return Ok(CourseCOAttainment(coId, 0, 0.0, 0, 0));
    }
    var studentAttainments: seq<real> := [];
    for i := 0 to |students|
      invariant |studentAttainments| == i
      invariant forall k :: 0 <= k < i ==>
        studentAttainments[k] == StudentTier.StudentCOAttainment(db, students[k].id, courseId, coId)
    {
      var attainment := StudentTier.StudentCOAttainment(db, students[i].id, courseId, coId);
      studentAttainments := studentAttainments + [attainment];
    }
    assert studentAttainments == Attainments(db, students, courseId, coId);
    var meeting := CountMeeting(studentAttainments, course.target);
    var pct := Percentage(meeting as real, |students| as real);
    var level := AttainmentLevel(pct, course.level1, course.level2, course.level3);
    r := Ok(CourseCOAttainment(coId, level, pct, meeting, |students|));
  }

  /**
   * Every attainment meets the target exactly when the count is the whole
   * length, and none does exactly when the count is 0.
   */
  lemma CountMeetingExtremes(attainments: seq<real>, target: real)
    ensures CountMeeting(attainments, target) == |attainments| <==>
              forall k :: 0 <= k < |attainments| ==> attainments[k] >= target
    ensures CountMeeting(attainments, target) == 0 <==>
              forall k :: 0 <= k < |attainments| ==> attainments[k] < target
  {
    FilterKeepsAll(attainments, (a: real) => a >= target);
    FilterKeepsNone(attainments, (a: real) => a >= target);
  }

  /**
   * Everyone in scope meets the target exactly when the count equals the
   * population, and no one does exactly when it is 0.
   */
  lemma MeetingCountExtremes(db: Db, coId: Id, courseId: Id, sectionId: Option<Id>, course: Course)
    requires FindCourse(db.courses, courseId) == Some(course)
    ensures var r := CourseCOAttainmentOf(db, coId, courseId, sectionId);
            var scope := ScopeStudents(db, course, sectionId);
            r.Ok? &&
            (r.value.studentsMeetingTarget == r.value.totalStudents <==>
               forall k :: 0 <= k < |scope| ==>
                 StudentTier.StudentCOAttainment(db, scope[k].id, courseId, coId) >= course.target) &&
            (r.value.studentsMeetingTarget == 0 <==>
               forall k :: 0 <= k < |scope| ==>
                 StudentTier.StudentCOAttainment(db, scope[k].id, courseId, coId) < course.target)
  {
    var scope := ScopeStudents(db, course, sectionId);
    var r := CourseCOAttainmentOf(db, coId, courseId, sectionId);
    var atts := Attainments(db, scope, courseId, coId);
    assert r.Ok?;
    if |scope| != 0 {
      CountMeetingExtremes(atts, course.target);
      assert r.value.studentsMeetingTarget == CountMeeting(atts, course.target);
      assert r.value.totalStudents == |atts|;
    }
    assert forall k :: 0 <= k < |scope| ==>
      atts[k] == StudentTier.StudentCOAttainment(db, scope[k].id, courseId, coId);
  }

  /** Raising the target never increases the number of students who meet it. */
  lemma CountMeetingAntitone(attainments: seq<real>, lower: real, higher: real)
    requires lower <= higher
    ensures CountMeeting(attainments, higher) <= CountMeeting(attainments, lower)
  {
    FilterMonotone(attainments, (a: real) => a >= higher, (a: real) => a >= lower);
  }

  /**
   * With ordered thresholds the level is the number of thresholds reached,
   * so it is at least k exactly when the percentage reaches `level k`.
   */
  lemma LevelCountsThresholds(pct: real, level1: real, level2: real, level3: real)
    requires level1 <= level2 <= level3
    ensures AttainmentLevel(pct, level1, level2, level3) ==
              (if pct >= level1 then 1 else 0) + (if pct >= level2 then 1 else 0) + (if pct >= level3 then 1 else 0)
  {
  }

  /** With ordered thresholds a higher percentage never earns a lower level. */
  lemma LevelMonotone(p: real, q: real, level1: real, level2: real, level3: real)
    requires level1 <= level2 <= level3
    requires p <= q
    ensures AttainmentLevel(p, level1, level2, level3) <= AttainmentLevel(q, level1, level2, level3)
  {
  }

  /** Thresholds 40/60/80: 39.9, 40, 59.9, 60, 79.9, 80 and 100 earn 0, 1, 1, 2, 2, 3 and 3. */
  lemma LevelSteps()
    ensures AttainmentLevel(39.9, 40.0, 60.0, 80.0) == 0
    ensures AttainmentLevel(40.0, 40.0, 60.0, 80.0) == 1
    ensures AttainmentLevel(59.9, 40.0, 60.0, 80.0) == 1
    ensures AttainmentLevel(60.0, 40.0, 60.0, 80.0) == 2
    ensures AttainmentLevel(79.9, 40.0, 60.0, 80.0) == 2
    ensures AttainmentLevel(80.0, 40.0, 60.0, 80.0) == 3
    ensures AttainmentLevel(100.0, 40.0, 60.0, 80.0) == 3
  {
  }

  /**
   * Target 60 with three students in scope at 75%, 55% and 90%: two of
   * three meet it, 66.67% of the cohort, which is level 2 under thresholds
   * 40/60/80.
   */
  lemma TwoOfThreeMeetTarget(db: Db, coId: Id, courseId: Id, sectionId: Option<Id>, course: Course)
    requires FindCourse(db.courses, courseId) == Some(course)
    requires course.target == 60.0 && course.level1 == 40.0 && course.level2 == 60.0 && course.level3 == 80.0
    requires Attainments(db, ScopeStudents(db, course, sectionId), courseId, coId) == [75.0, 55.0, 90.0]
    ensures CourseCOAttainmentOf(db, coId, courseId, sectionId) ==
              Ok(CourseCOAttainment(coId, 2, 200.0 / 3.0, 2, 3))
  {
    var atts := [75.0, 55.0, 90.0];
    assert atts[1..] == [55.0, 90.0] && atts[1..][1..] == [90.0] && atts[1..][1..][1..] == [];
    assert CountMeeting(atts, 60.0) == 2;
  }
}
