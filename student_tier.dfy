/**
 * Tier 1: the percentage of marks one student obtained on the questions of
 * a course that evidence one course outcome.
 */
module StudentTier {
  import opened Wrappers
  import opened Sequences
  import opened Snapshot

  /** The question belongs to an assessment of the course and is mapped to the outcome. */
  predicate Evidences(assessments: seq<Assessment>, qcm: seq<QuestionCOMapping>,
                      q: AssessmentQuestion, courseId: Id, coId: Id)
  {
    (exists a :: a in assessments && a.id == q.assessmentId && a.courseId == courseId) &&
    (exists m :: m in qcm && m.questionId == q.id && m.coId == coId)
  }

  /** The questions of the course mapped to the outcome, in query order. */
  function MappedQuestions(questions: seq<AssessmentQuestion>, assessments: seq<Assessment>,
                           qcm: seq<QuestionCOMapping>, courseId: Id, coId: Id): seq<AssessmentQuestion>
  {
    Filter(questions, (q: AssessmentQuestion) => Evidences(assessments, qcm, q, courseId, coId))
  }

  function QuestionIds(qs: seq<AssessmentQuestion>): seq<Id>
  {
    seq(|qs|, i requires 0 <= i < |qs| => qs[i].id)
  }

  /** The student's mark rows on the given questions. */
  function StudentMarks(marks: seq<MarkScore>, studentId: Id, questionIds: seq<Id>): seq<MarkScore>
  {
    Filter(marks, (m: MarkScore) => m.studentId == studentId && m.questionId in questionIds)
  }

  function SumMarks(ms: seq<MarkScore>): real
  {
    if ms == [] then 0.0 else ms[0].marks + SumMarks(ms[1..])
  }

  predicate HasMark(ms: seq<MarkScore>, questionId: Id)
  {
    exists m :: m in ms && m.questionId == questionId
  }

  /** The maximum marks of the questions that have at least one mark row, each counted once. */
  function ScoredMaxMarks(qs: seq<AssessmentQuestion>, ms: seq<MarkScore>): real
  {
    if qs == [] then 0.0
    else (if HasMark(ms, qs[0].id) then qs[0].maxMarks else 0.0) + ScoredMaxMarks(qs[1..], ms)
  }

  /** Student–CO attainment, a percentage; 0 when there is no evidence. */
  function StudentCOAttainment(db: Db, studentId: Id, courseId: Id, coId: Id): (r: real)
    ensures var qs := MappedQuestions(db.questions, db.assessments, db.questionCOMappings, courseId, coId);
            var ms := StudentMarks(db.markScores, studentId, QuestionIds(qs));
            var den := SumMaxMarks(ScoredQuestions(qs, ms));
            (ms == [] ==> r == 0.0) &&
            (den == 0.0 ==> r == 0.0) &&
            (den != 0.0 ==> r == Percentage(SumMarks(ms), den))
  {
    var qs := MappedQuestions(db.questions, db.assessments, db.questionCOMappings, courseId, coId);
    if |qs| == 0 then 0.0
    else
      var ms := StudentMarks(db.markScores, studentId, QuestionIds(qs));
      DenominatorOverScoredOnly(qs, ms);
      if |ms| == 0 then
        NoRowsScoreNothing(qs);
        0.0
      else
        var obtained := SumMarks(ms);
        var max := ScoredMaxMarks(qs, ms);
        if max == 0.0 then 0.0 else Percentage(obtained, max)
  }

  /** Without mark rows no question is scored, so the denominator is 0. */
  lemma {:induction false} NoRowsScoreNothing(qs: seq<AssessmentQuestion>)
    ensures ScoredMaxMarks(qs, []) == 0.0
  {
    if qs != [] {
      NoRowsScoreNothing(qs[1..]);
    }
  }

  /**
   * With no mapped question of the course, or no mark row of the student on
   * any mapped question, the attainment is exactly 0.
   */
  lemma ZeroWithoutEvidence(db: Db, studentId: Id, courseId: Id, coId: Id)
    requires forall q, m ::
               q in db.questions && m in db.markScores && m.studentId == studentId &&
               Evidences(db.assessments, db.questionCOMappings, q, courseId, coId)
               ==> m.questionId != q.id
    ensures StudentCOAttainment(db, studentId, courseId, coId) == 0.0
  {
    var qs := MappedQuestions(db.questions, db.assessments, db.questionCOMappings, courseId, coId);
    if |qs| != 0 {
      var ids := QuestionIds(qs);
      var ms := StudentMarks(db.markScores, studentId, ids);
      if |ms| != 0 {
        var m := ms[0];
        FilterMembers(db.markScores, (m: MarkScore) => m.studentId == studentId && m.questionId in ids);
        assert m in ms;
        var i :| 0 <= i < |ids| && ids[i] == m.questionId;
        FilterMembers(db.questions, (q: AssessmentQuestion) => Evidences(db.assessments, db.questionCOMappings, q, courseId, coId));
        assert false;
      }
    }
  }

  /** The questions of `qs` the rows `ms` score, in order. */
  function ScoredQuestions(qs: seq<AssessmentQuestion>, ms: seq<MarkScore>): seq<AssessmentQuestion>
  {
    Filter(qs, (q: AssessmentQuestion) => HasMark(ms, q.id))
  }

  function SumMaxMarks(qs: seq<AssessmentQuestion>): real
  {
    if qs == [] then 0.0 else qs[0].maxMarks + SumMaxMarks(qs[1..])
  }

  /**
   * The denominator is the plain sum of maximum marks over the scored
   * questions only: an unscored question adds nothing to it.
   */
  lemma {:induction false} DenominatorOverScoredOnly(qs: seq<AssessmentQuestion>, ms: seq<MarkScore>)
    ensures ScoredMaxMarks(qs, ms) == SumMaxMarks(ScoredQuestions(qs, ms))
  {
    if qs != [] {
      DenominatorOverScoredOnly(qs[1..], ms);
      if HasMark(ms, qs[0].id) {
        assert ScoredQuestions(qs, ms) == [qs[0]] + ScoredQuestions(qs[1..], ms);
        assert ([qs[0]] + ScoredQuestions(qs[1..], ms))[1..] == ScoredQuestions(qs[1..], ms);
      } else {
        assert ScoredQuestions(qs, ms) == ScoredQuestions(qs[1..], ms);
      }
    }
  }

  /**
   * A further mark row on a question that is already scored adds its marks
   * to the numerator but leaves the denominator unchanged.
   */
  lemma {:induction false} RepeatedRowCountedOnce(qs: seq<AssessmentQuestion>, m: MarkScore, ms: seq<MarkScore>)
    requires HasMark(ms, m.questionId)
    ensures SumMarks([m] + ms) == m.marks + SumMarks(ms)
    ensures ScoredMaxMarks(qs, [m] + ms) == ScoredMaxMarks(qs, ms)
  {
    assert ([m] + ms)[1..] == ms;
    if qs != [] {
      RepeatedRowCountedOnce(qs[1..], m, ms);
      assert HasMark([m] + ms, qs[0].id) == HasMark(ms, qs[0].id) by {
        if HasMark([m] + ms, qs[0].id) {
          var x :| x in [m] + ms && x.questionId == qs[0].id;
          if x == m {
            var y :| y in ms && y.questionId == m.questionId;
            assert y.questionId == qs[0].id;
          }
        }
        if HasMark(ms, qs[0].id) {
          var y :| y in ms && y.questionId == qs[0].id;
          assert y in [m] + ms;
        }
      }
    }
  }

  /** Maximum marks are non-negative, marks are non-negative and no mark exceeds its question's maximum. */
  predicate MarksWithinMax(db: Db)
  {
    (forall q :: q in db.questions ==> q.maxMarks >= 0.0) &&
    (forall m :: m in db.markScores ==> m.marks >= 0.0) &&
    (forall m, q :: m in db.markScores && q in db.questions && m.questionId == q.id ==> m.marks <= q.maxMarks)
  }

  /** At most one mark row per (student, question) pair. */
  predicate OneRowPerStudentQuestion(marks: seq<MarkScore>)
  {
    forall i, j :: 0 <= i < j < |marks| ==>
      marks[i].studentId != marks[j].studentId || marks[i].questionId != marks[j].questionId
  }

  /** No two rows of `ms` are for the same question. */
  predicate DistinctQuestions(ms: seq<MarkScore>)
  {
    ms == [] || (!HasMark(ms[1..], ms[0].questionId) && DistinctQuestions(ms[1..]))
  }

  lemma {:induction false} StudentRowsDistinct(marks: seq<MarkScore>, studentId: Id, questionIds: seq<Id>)
    requires OneRowPerStudentQuestion(marks)
    ensures DistinctQuestions(StudentMarks(marks, studentId, questionIds))
  {
    if marks != [] {
      var tail := marks[1..];
      forall i, j | 0 <= i < j < |tail|
        ensures tail[i].studentId != tail[j].studentId || tail[i].questionId != tail[j].questionId
      {
        assert tail[i] == marks[i + 1] && tail[j] == marks[j + 1];
      }
      StudentRowsDistinct(tail, studentId, questionIds);
      var rest := StudentMarks(tail, studentId, questionIds);
      if marks[0].studentId == studentId && marks[0].questionId in questionIds {
        assert StudentMarks(marks, studentId, questionIds) == [marks[0]] + rest;
        assert ([marks[0]] + rest)[1..] == rest;
        FilterMembers(tail, (m: MarkScore) => m.studentId == studentId && m.questionId in questionIds);
        forall m | m in rest ensures m.questionId != marks[0].questionId {
          var j :| 0 <= j < |tail| && tail[j] == m;
          assert marks[j + 1] == m;
        }
      } else {
        assert StudentMarks(marks, studentId, questionIds) == rest;
      }
    }
  }

  /** The maximum marks of all questions of `qs` with the given id. */
  function MaxFor(qs: seq<AssessmentQuestion>, questionId: Id): real
  {
    if qs == [] then 0.0
    else (if qs[0].id == questionId then qs[0].maxMarks else 0.0) + MaxFor(qs[1..], questionId)
  }

  lemma {:induction false} MaxForAtLeast(qs: seq<AssessmentQuestion>, q: AssessmentQuestion)
    requires q in qs
    requires forall x :: x in qs ==> x.maxMarks >= 0.0
    ensures MaxFor(qs, q.id) >= q.maxMarks
  {
    if qs[0] != q {
      MaxForAtLeast(qs[1..], q);
    } else if |qs| > 1 {
      MaxForNonNegative(qs[1..], q.id);
    }
  }

  lemma {:induction false} MaxForNonNegative(qs: seq<AssessmentQuestion>, questionId: Id)
    requires forall x :: x in qs ==> x.maxMarks >= 0.0
    ensures MaxFor(qs, questionId) >= 0.0
  {
    if qs != [] {
      MaxForNonNegative(qs[1..], questionId);
    }
  }

  /** A row for a question not yet scored adds that question's maximum to the denominator. */
  lemma {:induction false} ScoredMaxMarksCons(qs: seq<AssessmentQuestion>, m: MarkScore, ms: seq<MarkScore>)
    requires !HasMark(ms, m.questionId)
    ensures ScoredMaxMarks(qs, [m] + ms) == ScoredMaxMarks(qs, ms) + MaxFor(qs, m.questionId)
  {
    if qs != [] {
      ScoredMaxMarksCons(qs[1..], m, ms);
      assert HasMark([m] + ms, qs[0].id) <==> HasMark(ms, qs[0].id) || qs[0].id == m.questionId by {
        if HasMark([m] + ms, qs[0].id) {
          var x :| x in [m] + ms && x.questionId == qs[0].id;
        }
        if HasMark(ms, qs[0].id) {
          var y :| y in ms && y.questionId == qs[0].id;
          assert y in [m] + ms;
        }
        assert m in [m] + ms;
      }
    }
  }

  lemma {:induction false} ObtainedWithinScored(qs: seq<AssessmentQuestion>, ms: seq<MarkScore>)
    requires forall q :: q in qs ==> q.maxMarks >= 0.0
    requires forall m :: m in ms ==> exists q :: q in qs && q.id == m.questionId
    requires forall m, q :: m in ms && q in qs && m.questionId == q.id ==> m.marks <= q.maxMarks
    requires DistinctQuestions(ms)
    ensures SumMarks(ms) <= ScoredMaxMarks(qs, ms)
  {
    if ms == [] {
      ScoredMaxMarksNonNegative(qs, ms);
    } else {
      var m, rest := ms[0], ms[1..];
      assert m in ms;
      ObtainedWithinScored(qs, rest);
      assert ms == [m] + rest;
      ScoredMaxMarksCons(qs, m, rest);
      var q :| q in qs && q.id == m.questionId;
      MaxForAtLeast(qs, q);
      assert m.marks <= q.maxMarks;
      assert SumMarks(ms) == m.marks + SumMarks(rest);
    }
  }

  lemma {:induction false} ScoredMaxMarksNonNegative(qs: seq<AssessmentQuestion>, ms: seq<MarkScore>)
    requires forall q :: q in qs ==> q.maxMarks >= 0.0
    ensures ScoredMaxMarks(qs, ms) >= 0.0
  {
    if qs != [] {
      ScoredMaxMarksNonNegative(qs[1..], ms);
    }
  }

  lemma {:induction false} SumMarksNonNegative(ms: seq<MarkScore>)
    requires forall m :: m in ms ==> m.marks >= 0.0
    ensures SumMarks(ms) >= 0.0
  {
    if ms != [] {
      SumMarksNonNegative(ms[1..]);
    }
  }

  /** The student's rows on the mapped questions meet the preconditions of ObtainedWithinScored. */
  lemma ScoredRowsWithinMax(db: Db, qs: seq<AssessmentQuestion>, studentId: Id, ids: seq<Id>)
    requires MarksWithinMax(db)
    requires forall q :: q in qs ==> q in db.questions
    requires ids == QuestionIds(qs)
    ensures var ms := StudentMarks(db.markScores, studentId, ids);
            (forall q :: q in qs ==> q.maxMarks >= 0.0) &&
            (forall m :: m in ms ==> m.marks >= 0.0 && exists q :: q in qs && q.id == m.questionId) &&
            (forall m, q :: m in ms && q in qs && m.questionId == q.id ==> m.marks <= q.maxMarks)
  {
    var ms := StudentMarks(db.markScores, studentId, ids);
    FilterMembers(db.markScores, (m: MarkScore) => m.studentId == studentId && m.questionId in ids);
    forall m | m in ms ensures exists q :: q in qs && q.id == m.questionId {
      var i :| 0 <= i < |ids| && ids[i] == m.questionId;
      assert qs[i] in qs;
    }
  }

  /**
   * On a snapshot where marks lie between 0 and the question's maximum and
   * each student has at most one row per question, the attainment is a
   * percentage in [0, 100].
   */
  lemma StudentCOAttainmentBounds(db: Db, studentId: Id, courseId: Id, coId: Id)
    requires MarksWithinMax(db)
    requires OneRowPerStudentQuestion(db.markScores)
    ensures 0.0 <= StudentCOAttainment(db, studentId, courseId, coId) <= 100.0
  {
    var qs := MappedQuestions(db.questions, db.assessments, db.questionCOMappings, courseId, coId);
    FilterMembers(db.questions, (q: AssessmentQuestion) => Evidences(db.assessments, db.questionCOMappings, q, courseId, coId));
    if |qs| != 0 {
      var ids := QuestionIds(qs);
      var ms := StudentMarks(db.markScores, studentId, ids);
      if |ms| != 0 {
        var max := ScoredMaxMarks(qs, ms);
        DenominatorOverScoredOnly(qs, ms);
        if max != 0.0 {
          StudentRowsDistinct(db.markScores, studentId, ids);
          ScoredRowsWithinMax(db, qs, studentId, ids);
          ObtainedWithinScored(qs, ms);
          SumMarksNonNegative(ms);
          assert max > 0.0;
          PercentageBounds(SumMarks(ms), max);
        }
      }
    }
  }

  /** The rows of the example below: one assessment, three mapped questions, two mark rows. */
  predicate TwoOfThreeRows(db: Db)
  {
    db.assessments == [Assessment("a1", "c1")] &&
    db.questions == [AssessmentQuestion("q1", "a1", 10.0), AssessmentQuestion("q2", "a1", 10.0),
                     AssessmentQuestion("q3", "a1", 10.0)] &&
    db.questionCOMappings == [QuestionCOMapping("q1", "co1"), QuestionCOMapping("q2", "co1"),
                              QuestionCOMapping("q3", "co1")] &&
    db.markScores == [MarkScore("s1", "q1", 8.0), MarkScore("s1", "q2", 9.0)]
  }

  lemma TwoOfThreeQuestions(db: Db)
    requires TwoOfThreeRows(db)
    ensures MappedQuestions(db.questions, db.assessments, db.questionCOMappings, "c1", "co1") == db.questions
  {
    var q1, q2, q3 := db.questions[0], db.questions[1], db.questions[2];
    assert db.assessments[0] in db.assessments;
    assert Evidences(db.assessments, db.questionCOMappings, q1, "c1", "co1") by {
      assert db.questionCOMappings[0] in db.questionCOMappings;
    }
    assert Evidences(db.assessments, db.questionCOMappings, q2, "c1", "co1") by {
      assert db.questionCOMappings[1] in db.questionCOMappings;
    }
    assert Evidences(db.assessments, db.questionCOMappings, q3, "c1", "co1") by {
      assert db.questionCOMappings[2] in db.questionCOMappings;
    }
    var tail1 := MappedQuestions(db.questions[1..], db.assessments, db.questionCOMappings, "c1", "co1");
    var tail2 := MappedQuestions(db.questions[2..], db.assessments, db.questionCOMappings, "c1", "co1");
    var tail3 := MappedQuestions(db.questions[3..], db.assessments, db.questionCOMappings, "c1", "co1");
    assert db.questions[1..][1..] == db.questions[2..] && db.questions[2..][1..] == db.questions[3..];
    assert tail3 == [];
    assert tail2 == [q3] + tail3;
    assert tail1 == [q2] + tail2;
  }

  lemma TwoOfThreeMarks(db: Db)
    requires TwoOfThreeRows(db)
    ensures StudentMarks(db.markScores, "s1", QuestionIds(db.questions)) == db.markScores
  {
    var ids := QuestionIds(db.questions);
    assert ids == ["q1", "q2", "q3"];
    assert "q1" in ids && "q2" in ids;
    assert db.markScores[1..][1..] == [];
    assert StudentMarks(db.markScores[1..][1..], "s1", ids) == [];
    assert StudentMarks(db.markScores[1..], "s1", ids) == [db.markScores[1]];
  }

  lemma TwoOfThreeDenominator(qs: seq<AssessmentQuestion>, ms: seq<MarkScore>)
    requires qs == [AssessmentQuestion("q1", "a1", 10.0), AssessmentQuestion("q2", "a1", 10.0),
                    AssessmentQuestion("q3", "a1", 10.0)]
    requires ms == [MarkScore("s1", "q1", 8.0), MarkScore("s1", "q2", 9.0)]
    ensures SumMarks(ms) == 17.0
    ensures ScoredMaxMarks(qs, ms) == 20.0
  {
    assert ms[1..] == [ms[1]] && ms[1..][1..] == [];
    assert SumMarks(ms) == 8.0 + SumMarks([ms[1]]) == 8.0 + 9.0 + SumMarks([]);
    assert HasMark(ms, "q1") && HasMark(ms, "q2") by {
      assert ms[0] in ms && ms[1] in ms;
    }
    assert !HasMark(ms, "q3") by {
      assert "q3" != "q1" && "q3" != "q2";
    }
    assert qs[1..] == [qs[1], qs[2]] && qs[1..][1..] == [qs[2]] && qs[1..][1..][1..] == [];
    assert ScoredMaxMarks([qs[2]], ms) == 0.0;
    assert ScoredMaxMarks([qs[1], qs[2]], ms) == 10.0;
  }

  /**
   * Three questions of 10 marks mapped to the outcome; the student is scored
   * on two of them, with 8 and 9. The unscored question stays out of the
   * denominator: 100 × 17 / 20 = 85, not 100 × 17 / 30.
   */
  lemma AttemptedTwoOfThree(db: Db)
    requires TwoOfThreeRows(db)
    ensures StudentCOAttainment(db, "s1", "c1", "co1") == 85.0
  {
    TwoOfThreeQuestions(db);
    TwoOfThreeMarks(db);
    TwoOfThreeDenominator(db.questions, db.markScores);
  }
}
