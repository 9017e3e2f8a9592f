/**
 * The rows the attainment calculator reads, as one immutable snapshot of
 * the relational store. Each sequence holds one table in query order; a
 * lookup by primary key returns the first row with that id.
 */
module Snapshot {
  import opened Wrappers
  import opened Sequences

  /** Row identifiers (the store's string primary keys). */
  type Id = string

  /** The two lookups that abort a computation when they find nothing. */
  datatype Error = CourseNotFound | PONotFound

  datatype Student = Student(id: Id, batchId: Id, sectionId: Option<Id>)

  /**
   * A course with its calibration: `target` is the per-student percentage
   * that meets an outcome; `level1`..`level3` are the cohort percentages
   * that earn attainment levels 1..3.
   */
  datatype Course = Course(
    id: Id, programId: Id, batchId: Id,
    target: real, level1: real, level2: real, level3: real)

  datatype CourseOutcome = CourseOutcome(id: Id, courseId: Id)

  /** A program outcome with its optional survey-based (indirect) attainment. */
  datatype ProgramOutcome = ProgramOutcome(id: Id, programId: Id, indirectAttainment: Option<real>)

  datatype Assessment = Assessment(id: Id, courseId: Id)

  datatype AssessmentQuestion = AssessmentQuestion(id: Id, assessmentId: Id, maxMarks: real)

  /** One edge of the many-to-many relation between questions and course outcomes. */
  datatype QuestionCOMapping = QuestionCOMapping(questionId: Id, coId: Id)

  /** The marks one student obtained on one question; no row means "not scored". */
  datatype MarkScore = MarkScore(studentId: Id, questionId: Id, marks: real)

  /** One edge between a course outcome and a program outcome, weighted by `level`. */
  datatype CoPoMapping = CoPoMapping(coId: Id, poId: Id, level: int)

  datatype Db = Db(
    students: seq<Student>,
    courses: seq<Course>,
    courseOutcomes: seq<CourseOutcome>,
    programOutcomes: seq<ProgramOutcome>,
    assessments: seq<Assessment>,
    questions: seq<AssessmentQuestion>,
    questionCOMappings: seq<QuestionCOMapping>,
    markScores: seq<MarkScore>,
    coPoMappings: seq<CoPoMapping>)

  function FindCourse(courses: seq<Course>, id: Id): (r: Option<Course>)
    ensures r.Some? ==> r.value in courses && r.value.id == id
    ensures r.None? <==> forall c :: c in courses ==> c.id != id
  {
    FindFirst(courses, (c: Course) => c.id == id)
  }

  function FindCourseOutcome(cos: seq<CourseOutcome>, id: Id): (r: Option<CourseOutcome>)
    ensures r.Some? ==> r.value in cos && r.value.id == id
    ensures r.None? <==> forall co :: co in cos ==> co.id != id
  {
    FindFirst(cos, (co: CourseOutcome) => co.id == id)
  }

  function FindProgramOutcome(pos: seq<ProgramOutcome>, id: Id): (r: Option<ProgramOutcome>)
    ensures r.Some? ==> r.value in pos && r.value.id == id
    ensures r.None? <==> forall po :: po in pos ==> po.id != id
  {
    FindFirst(pos, (po: ProgramOutcome) => po.id == id)
  }

  /** `part / whole × 100`, the percentage formula of the two lower tiers. */
  function Percentage(part: real, whole: real): real
    requires whole != 0.0
  {
    part / whole * 100.0
  }

  lemma PercentageBounds(part: real, whole: real)
    requires 0.0 < whole && 0.0 <= part <= whole
    ensures 0.0 <= Percentage(part, whole) <= 100.0
  {
    assert part / whole <= 1.0 by {
      assert part / whole * whole == part;
    }
  }
}
