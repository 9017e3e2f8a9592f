/**
 * The two batch entry points: every program outcome of a program, and every
 * course outcome of a course, each computed in query order; the first
 * failure aborts the batch and is passed on.
 */
module Batch {
  import opened Wrappers
  import opened Sequences
  import opened Snapshot
  import CourseTier
  import ProgramTier

  /** The program outcomes of the program, in query order. */
  function ProgramPOs(db: Db, programId: Id): seq<ProgramOutcome>
  {
    Filter(db.programOutcomes, (po: ProgramOutcome) => po.programId == programId)
  }

  /** Overall attainment of one program outcome under the default 70/30 weights. */
  function OverallOf(db: Db, programId: Id): ProgramOutcome -> Result<ProgramTier.POAttainment, Error>
  {
    (po: ProgramOutcome) =>
      ProgramTier.OverallPOAttainmentOf(db, po.id, programId,
                                        ProgramTier.DefaultDirectWeight, ProgramTier.DefaultIndirectWeight)
  }

  /** The overall attainment of each program outcome of the program, in order, or the first error. */
  function ProgramPOAttainmentsOf(db: Db, programId: Id): (r: Result<seq<ProgramTier.POAttainment>, Error>)
    ensures var pos := ProgramPOs(db, programId);
            r.Ok? ==> |r.value| == |pos| &&
                      forall i :: 0 <= i < |pos| ==> OverallOf(db, programId)(pos[i]) == Ok(r.value[i])
    ensures var pos := ProgramPOs(db, programId);
            r.Err? ==> exists i :: 0 <= i < |pos| && OverallOf(db, programId)(pos[i]) == Err(r.error) &&
                                 forall j :: 0 <= j < i ==> OverallOf(db, programId)(pos[j]).Ok?
  {
    MapAllResult(ProgramPOs(db, programId), OverallOf(db, programId));
    MapAll(ProgramPOs(db, programId), OverallOf(db, programId))
  }

  /** `calculateProgramPOAttainments`. */
  method CalculateProgramPOAttainments(db: Db, programId: Id)
    returns (r: Result<seq<ProgramTier.POAttainment>, Error>)
    ensures r == ProgramPOAttainmentsOf(db, programId)
  {
    var pos := ProgramPOs(db, programId);
    var attainments: seq<ProgramTier.POAttainment> := [];
    for i := 0 to |pos|
      invariant MapAll(pos[..i], OverallOf(db, programId)) == Ok(attainments)
    {
      var a := ProgramTier.CalculateOverallPOAttainment(db, pos[i].id, programId,
                                                        ProgramTier.DefaultDirectWeight,
                                                        ProgramTier.DefaultIndirectWeight);
      if a.Err? {
        MapAllPrefixErr(pos, OverallOf(db, programId), i);
        return Err(a.error);
      }
      MapAllStep(pos, OverallOf(db, programId), i, attainments, a.value);
      attainments := attainments + [a.value];
    }
    assert pos[..|pos|] == pos;
    r := Ok(attainments);
  }

  /**
   * Every program outcome of the program gets exactly one record, in query
   * order, carrying its id and its direct attainment; the batch never fails,
   * since each outcome it looks up is one it has just listed.
   */
  lemma ProgramPOAttainmentsComplete(db: Db, programId: Id)
    ensures var r := ProgramPOAttainmentsOf(db, programId);
            var pos := ProgramPOs(db, programId);
            r.Ok? && |r.value| == |pos| &&
            forall i :: 0 <= i < |pos| ==>
              r.value[i].poId == pos[i].id &&
              r.value[i].directAttainment == ProgramTier.DirectPOAttainmentOf(db, pos[i].id, programId)
  {
    var pos := ProgramPOs(db, programId);
    var f := OverallOf(db, programId);
    FilterMembers(db.programOutcomes, (po: ProgramOutcome) => po.programId == programId);
    forall i | 0 <= i < |pos| ensures f(pos[i]).Ok? {
      assert pos[i] in pos;
    }
    MapAllResult(pos, f);
    var r := MapAll(pos, f);
    forall i | 0 <= i < |pos|
      ensures r.value[i].poId == pos[i].id
      ensures r.value[i].directAttainment == ProgramTier.DirectPOAttainmentOf(db, pos[i].id, programId)
    {
      MapAllAt(pos, f, i);
    }
  }

  /** The course outcomes of the course, in query order. */
  function CourseCOs(db: Db, courseId: Id): seq<CourseOutcome>
  {
    Filter(db.courseOutcomes, (co: CourseOutcome) => co.courseId == courseId)
  }

  /** Tier 2 of one course outcome, over the same scope as the batch. */
  function CourseCOOf(db: Db, courseId: Id, sectionId: Option<Id>)
    : CourseOutcome -> Result<CourseTier.CourseCOAttainment, Error>
  {
    (co: CourseOutcome) => CourseTier.CourseCOAttainmentOf(db, co.id, courseId, sectionId)
  }

  /** The Tier 2 record of each course outcome of the course, in order, or the first error. */
  function CourseCOAttainmentsOf(db: Db, courseId: Id, sectionId: Option<Id>)
    : (r: Result<seq<CourseTier.CourseCOAttainment>, Error>)
    ensures var cos := CourseCOs(db, courseId);
            r.Ok? ==> |r.value| == |cos| &&
                      forall i :: 0 <= i < |cos| ==> CourseCOOf(db, courseId, sectionId)(cos[i]) == Ok(r.value[i])
    ensures var cos := CourseCOs(db, courseId);
            r.Err? ==> exists i :: 0 <= i < |cos| && CourseCOOf(db, courseId, sectionId)(cos[i]) == Err(r.error) &&
                                 forall j :: 0 <= j < i ==> CourseCOOf(db, courseId, sectionId)(cos[j]).Ok?
  {
    MapAllResult(CourseCOs(db, courseId), CourseCOOf(db, courseId, sectionId));
    MapAll(CourseCOs(db, courseId), CourseCOOf(db, courseId, sectionId))
  }

  /** `calculateCourseCOAttainments`. */
  method CalculateCourseCOAttainments(db: Db, courseId: Id, sectionId: Option<Id>)
    returns (r: Result<seq<CourseTier.CourseCOAttainment>, Error>)
    ensures r == CourseCOAttainmentsOf(db, courseId, sectionId)
  {
    var cos := CourseCOs(db, courseId);
    var attainments: seq<CourseTier.CourseCOAttainment> := [];
    for i := 0 to |cos|
      invariant MapAll(cos[..i], CourseCOOf(db, courseId, sectionId)) == Ok(attainments)
    {
      var a := CourseTier.CalculateCourseCOAttainment(db, cos[i].id, courseId, sectionId);
      if a.Err? {
        MapAllPrefixErr(cos, CourseCOOf(db, courseId, sectionId), i);
        return Err(a.error);
      }
      MapAllStep(cos, CourseCOOf(db, courseId, sectionId), i, attainments, a.value);
      attainments := attainments + [a.value];
    }
    assert cos[..|cos|] == cos;
    r := Ok(attainments);
  }

  /**
   * The course batch fails, with CourseNotFound, exactly when the course
   * has outcomes but no course row (with no outcomes the course is never
   * looked up).
   */
  lemma CourseBatchFails(db: Db, courseId: Id, sectionId: Option<Id>)
    ensures var r := CourseCOAttainmentsOf(db, courseId, sectionId);
            (r.Err? <==> |CourseCOs(db, courseId)| > 0 && forall c :: c in db.courses ==> c.id != courseId) &&
            (r.Err? ==> r.error == CourseNotFound)
  {
    var cos := CourseCOs(db, courseId);
    var f := CourseCOOf(db, courseId, sectionId);
    var r := MapAll(cos, f);
    if r.Err? {
      MapAllResult(cos, f);
      var i :| 0 <= i < |cos| && f(cos[i]) == Err(r.error);
    } else if |cos| > 0 {
      MapAllAt(cos, f, 0);
    }
  }

  /**
   * A successful course batch holds one record per outcome, in query order,
   * each over the same population of students in scope.
   */
  lemma CourseBatchRecords(db: Db, courseId: Id, sectionId: Option<Id>)
    ensures var r := CourseCOAttainmentsOf(db, courseId, sectionId);
            var cos := CourseCOs(db, courseId);
            r.Ok? ==>
              |r.value| == |cos| &&
              forall i :: 0 <= i < |cos| ==>
                (r.value[i].coId == cos[i].id &&
                 r.value[i].totalStudents ==
                   |CourseTier.ScopeStudents(db, FindCourse(db.courses, courseId).value, sectionId)|)
  {
    var cos := CourseCOs(db, courseId);
    var f := CourseCOOf(db, courseId, sectionId);
    var r := MapAll(cos, f);
    if r.Ok? {
      forall i | 0 <= i < |cos|
        ensures r.value[i].coId == cos[i].id
        ensures r.value[i].totalStudents ==
                |CourseTier.ScopeStudents(db, FindCourse(db.courses, courseId).value, sectionId)|
      {
        MapAllAt(cos, f, i);
      }
    }
  }
}
