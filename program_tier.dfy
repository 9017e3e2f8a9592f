/**
 * Tier 3: program outcome attainment. The direct part is the weighted
 * average of the Tier 2 levels of the course outcomes mapped to the program
 * outcome; the overall part blends it with the surveyed (indirect) score.
 */
module ProgramTier {
  import opened Wrappers
  import opened Sequences
  import opened Snapshot
  import StudentTier
  import CourseTier

  datatype POAttainment = POAttainment(
    poId: Id,
    directAttainment: real,
    indirectAttainment: real,
    overallAttainment: real)

  /** A CO–PO edge joined with the course of its outcome: what the direct attainment reads of it. */
  datatype MappingRow = MappingRow(coId: Id, courseId: Id, programId: Id, weight: int)

  /** The edge joined with its outcome and that outcome's course; nothing when either is missing. */
  function JoinMapping(cos: seq<CourseOutcome>, courses: seq<Course>, m: CoPoMapping): (r: Option<MappingRow>)
    ensures r.Some? ==> r.value.coId == m.coId && r.value.weight == m.level
    ensures r.Some? ==>
      var co := FindCourseOutcome(cos, m.coId);
      co.Some? && r.value.courseId == co.value.courseId &&
      FindCourse(courses, co.value.courseId).Some? &&
      r.value.programId == FindCourse(courses, co.value.courseId).value.programId
    ensures r.Some? ==> FindCourse(courses, r.value.courseId).Some? &&
                        FindCourse(courses, r.value.courseId).value.programId == r.value.programId
    ensures r.None? <==> FindCourseOutcome(cos, m.coId).None? ||
                         FindCourse(courses, FindCourseOutcome(cos, m.coId).value.courseId).None?
  {
    match FindCourseOutcome(cos, m.coId)
    case None => None
    case Some(co) =>
      match FindCourse(courses, co.courseId)
      case None => None
      case Some(course) => Some(MappingRow(m.coId, course.id, course.programId, m.level))
  }

  /**
   * The joined edges of the program outcome, in query order; nothing when
   * one of them cannot be joined (reading the program of such an edge
   * fails).
   */
  function MappingRows(cos: seq<CourseOutcome>, courses: seq<Course>, mappings: seq<CoPoMapping>, poId: Id)
    : (r: Option<seq<MappingRow>>)
    ensures r.Some? ==> |r.value| <= |mappings|
  {
    if mappings == [] then Some([])
    else
      var rest := MappingRows(cos, courses, mappings[1..], poId);
      if mappings[0].poId != poId then rest
      else
        match JoinMapping(cos, courses, mappings[0])
        case None => None
        case Some(row) => if rest.None? then None else Some([row] + rest.value)
  }

  /** The join fails exactly when some edge of the program outcome cannot be joined. */
  lemma {:induction false} JoinFailsOnDangling(cos: seq<CourseOutcome>, courses: seq<Course>,
                                               mappings: seq<CoPoMapping>, poId: Id)
    ensures MappingRows(cos, courses, mappings, poId).None? <==>
            exists m :: m in mappings && m.poId == poId && JoinMapping(cos, courses, m).None?
  {
    if mappings != [] {
      JoinFailsOnDangling(cos, courses, mappings[1..], poId);
      if exists m :: m in mappings[1..] && m.poId == poId && JoinMapping(cos, courses, m).None? {
        var m :| m in mappings[1..] && m.poId == poId && JoinMapping(cos, courses, m).None?;
        assert m in mappings;
      }
      assert forall m :: m in mappings ==> m == mappings[0] || m in mappings[1..];
    }
  }

  /**
   * Every joined row is an edge of the program outcome, with its weight,
   * whose course is in the snapshot and carries the row's program.
   */
  lemma {:induction false} JoinedRowsResolve(cos: seq<CourseOutcome>, courses: seq<Course>,
                                             mappings: seq<CoPoMapping>, poId: Id)
    ensures var rows := MappingRows(cos, courses, mappings, poId);
            rows.Some? ==> forall r :: r in rows.value ==>
              FindCourse(courses, r.courseId).Some? &&
              FindCourse(courses, r.courseId).value.programId == r.programId &&
              exists m :: m in mappings && m.poId == poId && m.coId == r.coId && m.level == r.weight
  {
    if mappings != [] {
      JoinedRowsResolve(cos, courses, mappings[1..], poId);
      var rest := MappingRows(cos, courses, mappings[1..], poId);
      if rest.Some? {
        forall r | r in rest.value
          ensures exists m :: m in mappings && m.poId == poId && m.coId == r.coId && m.level == r.weight
        {
          var m :| m in mappings[1..] && m.poId == poId && m.coId == r.coId && m.level == r.weight;
          assert m in mappings;
        }
      }
      assert mappings[0] in mappings;
    }
  }

  /** A successful join is complete: every edge of the program outcome joins, and its row is among the rows. */
  lemma {:induction false} JoinedRowsComplete(cos: seq<CourseOutcome>, courses: seq<Course>,
                                              mappings: seq<CoPoMapping>, poId: Id)
    ensures var rows := MappingRows(cos, courses, mappings, poId);
            rows.Some? ==> forall m :: m in mappings && m.poId == poId ==>
              JoinMapping(cos, courses, m).Some? && JoinMapping(cos, courses, m).value in rows.value
  {
    if mappings != [] {
      JoinedRowsComplete(cos, courses, mappings[1..], poId);
      assert forall m :: m in mappings ==> m == mappings[0] || m in mappings[1..];
    }
  }

  lemma {:induction false} MappingRowsAppend(cos: seq<CourseOutcome>, courses: seq<Course>,
                                             a: seq<CoPoMapping>, b: seq<CoPoMapping>, poId: Id)
    ensures var ra, rb := MappingRows(cos, courses, a, poId), MappingRows(cos, courses, b, poId);
            MappingRows(cos, courses, a + b, poId) == if ra.Some? && rb.Some? then Some(ra.value + rb.value) else None
  {
    if a == [] {
      assert a + b == b;
      var rb := MappingRows(cos, courses, b, poId);
      if rb.Some? {
        assert [] + rb.value == rb.value;
      }
    } else {
      assert (a + b)[1..] == a[1..] + b;
      MappingRowsAppend(cos, courses, a[1..], b, poId);
      var ra, rb := MappingRows(cos, courses, a[1..], poId), MappingRows(cos, courses, b, poId);
      if ra.Some? && rb.Some? {
        match JoinMapping(cos, courses, a[0])
        case None =>
        case Some(row) =>
          assert [row] + (ra.value + rb.value) == ([row] + ra.value) + rb.value;
      }
    }
  }

  function ProgramRows(rows: seq<MappingRow>, programId: Id): seq<MappingRow>
  {
    Filter(rows, (r: MappingRow) => r.programId == programId)
  }

  /** The joined edges of the program outcome whose course belongs to the program. */
  function ProgramMappingRows(db: Db, poId: Id, programId: Id): seq<MappingRow>
  {
    match MappingRows(db.courseOutcomes, db.courses, db.coPoMappings, poId)
    case None => []
    case Some(all) => ProgramRows(all, programId)
  }

  /** The whole-course Tier 2 level of the edge's outcome. */
  function Level(db: Db, row: MappingRow): (r: Result<int, Error>)
    ensures r.Ok? ==> 0 <= r.value <= 3
  {
    match CourseTier.CourseCOAttainmentOf(db, row.coId, row.courseId, None)
    case Ok(c) => Ok(c.attainmentLevel)
    case Err(e) => Err(e)
  }

  function LevelOf(db: Db): MappingRow -> Result<int, Error>
  {
    (row: MappingRow) => Level(db, row)
  }

  /** Σ level × weight. */
  function WeightedSum(levels: seq<int>, rows: seq<MappingRow>): int
    requires |levels| == |rows|
  {
    if rows == [] then 0
    else WeightedSum(levels[..|levels| - 1], rows[..|rows| - 1]) + levels[|levels| - 1] * rows[|rows| - 1].weight
  }

  /** Σ weight. */
  function TotalWeight(rows: seq<MappingRow>): int
  {
    if rows == [] then 0 else TotalWeight(rows[..|rows| - 1]) + rows[|rows| - 1].weight
  }

  /**
   * Direct PO attainment: the weight-averaged Tier 2 level of the program's
   * mapped outcomes; 0 when the program outcome has no edge, when an edge
   * cannot be joined, when no edge belongs to the program, when the weights
   * sum to 0, or when a Tier 2 computation fails.
   */
  function DirectPOAttainmentOf(db: Db, poId: Id, programId: Id): (r: real)
    ensures var rows := ProgramMappingRows(db, poId, programId);
            rows == [] || TotalWeight(rows) == 0 || MapAll(rows, LevelOf(db)).Err? ==> r == 0.0
    ensures var rows := ProgramMappingRows(db, poId, programId);
            var levels := MapAll(rows, LevelOf(db));
            levels.Ok? && TotalWeight(rows) != 0 ==>
              r == WeightedSum(levels.value, rows) as real / TotalWeight(rows) as real
  {
    match MappingRows(db.courseOutcomes, db.courses, db.coPoMappings, poId)
    case None => 0.0
    case Some(all) =>
      if |all| == 0 then 0.0
      else
        var rows := ProgramRows(all, programId);
        if |rows| == 0 then 0.0
        else
          match MapAll(rows, LevelOf(db))
          case Err(_) => 0.0
          case Ok(levels) =>
            var total := TotalWeight(rows);
            if total == 0 then 0.0 else WeightedSum(levels, rows) as real / total as real
  }

  /** `calculateDirectPOAttainment`: joins and filters the edges, then averages their levels. */
  method CalculateDirectPOAttainment(db: Db, poId: Id, programId: Id) returns (r: real)
    ensures r == DirectPOAttainmentOf(db, poId, programId)
  {
    var joined := MappingRows(db.courseOutcomes, db.courses, db.coPoMappings, poId);
    if joined.None? {
      return 0.0;
    }
    var all := joined.value;
    if |all| == 0 {
      return 0.0;
    }
    var rows := ProgramRows(all, programId);
    if |rows| == 0 {
      return 0.0;
    }
    var sums := AccumulateLevels(db, rows);
    if sums.Err? {
      return 0.0;
    }
    var (weightedSum, totalWeight) := sums.value;
    if totalWeight == 0 {
      return 0.0;
    }
    r := weightedSum as real / totalWeight as real;
  }

  /**
   * The loop of `calculateDirectPOAttainment`: Σ level × weight and Σ weight
   * over the edges, or the error of the first Tier 2 computation that fails.
   */
  method AccumulateLevels(db: Db, rows: seq<MappingRow>) returns (r: Result<(int, int), Error>)
    ensures r.Err? <==> MapAll(rows, LevelOf(db)).Err?
    ensures r.Err? ==> r.error == MapAll(rows, LevelOf(db)).error
    ensures r.Ok? ==> r.value == (WeightedSum(MapAll(rows, LevelOf(db)).value, rows), TotalWeight(rows))
  {
    var weightedSum := 0;
    var totalWeight := 0;
    ghost var levels: seq<int> := [];
    for i := 0 to |rows|
      invariant |levels| == i
      invariant MapAll(rows[..i], LevelOf(db)) == Ok(levels)
      invariant weightedSum == WeightedSum(levels, rows[..i])
      invariant totalWeight == TotalWeight(rows[..i])
    {
      var level := RowLevel(db, rows[i]);
      if level.Err? {
        MapAllPrefixErr(rows, LevelOf(db), i);
        return Err(level.error);
      }
      SumsStep(levels, rows, i, level.value);
      MapAllStep(rows, LevelOf(db), i, levels, level.value);
      weightedSum := weightedSum + level.value * rows[i].weight;
      totalWeight := totalWeight + rows[i].weight;
      levels := levels + [level.value];
    }
    PrefixWhole(rows);
    r := Ok((weightedSum, totalWeight));
  }

  /** One edge's level, by running the Tier 2 calculation on the whole course. */
  method RowLevel(db: Db, row: MappingRow) returns (r: Result<int, Error>)
    ensures r == LevelOf(db)(row)
  {
    var c := CourseTier.CalculateCourseCOAttainment(db, row.coId, row.courseId, None);
    if c.Err? {
      return Err(c.error);
    }
    r := Ok(c.value.attainmentLevel);
  }

  lemma PrefixWhole(rows: seq<MappingRow>)
    ensures rows[..|rows|] == rows
  {
  }

  lemma SumsStep(levels: seq<int>, rows: seq<MappingRow>, i: nat, level: int)
    requires |levels| == i < |rows|
    ensures WeightedSum(levels + [level], rows[..i + 1]) == WeightedSum(levels, rows[..i]) + level * rows[i].weight
    ensures TotalWeight(rows[..i + 1]) == TotalWeight(rows[..i]) + rows[i].weight
  {
    assert rows[..i + 1][..i] == rows[..i];
    assert (levels + [level])[..i] == levels;
  }

  /**
   * Every edge that survives the join has its course in the snapshot, so
   * the Tier 2 lookup the direct attainment makes never fails: the
   * error-to-0 path is reached only by store failures, which a snapshot
   * does not have.
   */
  lemma DirectLevelsFound(db: Db, poId: Id, programId: Id)
    ensures MapAll(ProgramMappingRows(db, poId, programId), LevelOf(db)).Ok?
  {
    var rows := ProgramMappingRows(db, poId, programId);
    ProgramRowsResolve(db, poId, programId);
    forall k | 0 <= k < |rows| ensures LevelOf(db)(rows[k]).Ok? {
      assert rows[k] in rows;
    }
    MapAllResult(rows, LevelOf(db));
  }

  /** Every program edge's course is in the snapshot, and its weight is that of an edge of the program outcome. */
  lemma ProgramRowsResolve(db: Db, poId: Id, programId: Id)
    ensures forall r :: r in ProgramMappingRows(db, poId, programId) ==>
              FindCourse(db.courses, r.courseId).Some? &&
              exists m :: m in db.coPoMappings && m.poId == poId && m.coId == r.coId && m.level == r.weight
  {
    var joined := MappingRows(db.courseOutcomes, db.courses, db.coPoMappings, poId);
    JoinedRowsResolve(db.courseOutcomes, db.courses, db.coPoMappings, poId);
    if joined.Some? {
      FilterMembers(joined.value, (r: MappingRow) => r.programId == programId);
    }
  }

  /** With levels in 0..3 and positive weights, the weighted sum lies between 0 and 3 × the total weight. */
  lemma {:induction false} WeightedSumBounds(levels: seq<int>, rows: seq<MappingRow>)
    requires |levels| == |rows|
    requires forall k :: 0 <= k < |levels| ==> 0 <= levels[k] <= 3
    requires forall r :: r in rows ==> r.weight > 0
    ensures 0 <= WeightedSum(levels, rows) <= 3 * TotalWeight(rows)
    ensures rows != [] ==> TotalWeight(rows) > 0
  {
    if rows != [] {
      var n := |rows| - 1;
      assert forall r :: r in rows[..n] ==> r in rows;
      WeightedSumBounds(levels[..n], rows[..n]);
      assert rows[n] in rows;
      var l, w := levels[n], rows[n].weight;
      assert 0 <= l * w <= 3 * w by {
        assert 0 <= l <= 3 && w > 0;
      }
    }
  }

  /** When every level equals `level`, the weighted sum is `level` × the total weight. */
  lemma {:induction false} WeightedSumUniform(levels: seq<int>, rows: seq<MappingRow>, level: int)
    requires |levels| == |rows|
    requires forall k :: 0 <= k < |levels| ==> levels[k] == level
    ensures WeightedSum(levels, rows) == level * TotalWeight(rows)
  {
    if rows != [] {
      var n := |rows| - 1;
      WeightedSumUniform(levels[..n], rows[..n], level);
      assert level * TotalWeight(rows) == level * TotalWeight(rows[..n]) + level * rows[n].weight;
    }
  }

  /** With positive weights on every edge of the program outcome, the direct attainment lies in [0, 3]. */
  lemma DirectBounds(db: Db, poId: Id, programId: Id)
    requires forall m :: m in db.coPoMappings && m.poId == poId ==> m.level > 0
    ensures 0.0 <= DirectPOAttainmentOf(db, poId, programId) <= 3.0
  {
    var joined := MappingRows(db.courseOutcomes, db.courses, db.coPoMappings, poId);
    var rows := ProgramMappingRows(db, poId, programId);
    if joined.Some? && |joined.value| != 0 && |rows| != 0 {
      DirectLevelsFound(db, poId, programId);
      var levels := MapAll(rows, LevelOf(db)).value;
      forall k | 0 <= k < |levels| ensures 0 <= levels[k] <= 3 {
        MapAllAt(rows, LevelOf(db), k);
      }
      ProgramRowsResolve(db, poId, programId);
      assert forall r :: r in rows ==> r.weight > 0;
      WeightedSumBounds(levels, rows);
      AverageOnLevelScale(WeightedSum(levels, rows), TotalWeight(rows));
    }
  }

  lemma AverageOnLevelScale(sum: int, total: int)
    requires 0 < total && 0 <= sum <= 3 * total
    ensures 0.0 <= sum as real / total as real <= 3.0
  {
    assert sum as real / total as real * total as real == sum as real;
  }

  lemma AverageOfEqualLevels(level: int, total: int)
    requires total != 0
    ensures (level * total) as real / total as real == level as real
  {
    assert (level * total) as real == level as real * total as real;
  }

  /**
   * The direct attainment is a weighted average: when every program edge's
   * outcome has the same level and the weights do not sum to 0, it is that
   * level.
   */
  lemma DirectUniformLevel(db: Db, poId: Id, programId: Id, level: int)
    requires forall row :: row in ProgramMappingRows(db, poId, programId) ==> Level(db, row) == Ok(level)
    requires TotalWeight(ProgramMappingRows(db, poId, programId)) != 0
    ensures DirectPOAttainmentOf(db, poId, programId) == level as real
  {
    var rows := ProgramMappingRows(db, poId, programId);
    var joined := MappingRows(db.courseOutcomes, db.courses, db.coPoMappings, poId);
    assert |rows| != 0;
    assert joined.Some? && |joined.value| != 0;
    var levels := seq(|rows|, k requires 0 <= k < |rows| => level);
    forall k | 0 <= k < |rows| ensures LevelOf(db)(rows[k]) == Ok(levels[k]) {
      assert rows[k] in rows;
    }
    MapAllOk(rows, LevelOf(db), levels);
    WeightedSumUniform(levels, rows, level);
    AverageOfEqualLevels(level, TotalWeight(rows));
  }

  /** The edge joins, and its outcome's course lies outside the program. */
  predicate OutsideProgram(db: Db, m: CoPoMapping, programId: Id)
  {
    match JoinMapping(db.courseOutcomes, db.courses, m)
    case None => false
    case Some(row) => row.programId != programId
  }

  /** An edge of the program outcome that cannot be joined. */
  predicate Dangling(db: Db, m: CoPoMapping, poId: Id)
  {
    m in db.coPoMappings && m.poId == poId && JoinMapping(db.courseOutcomes, db.courses, m).None?
  }

  /** Tier 1 and Tier 2 do not read the CO–PO edges. */
  lemma CourseCOIgnoresEdges(db: Db, mappings: seq<CoPoMapping>, coId: Id, courseId: Id, sectionId: Option<Id>)
    ensures CourseTier.CourseCOAttainmentOf(db.(coPoMappings := mappings), coId, courseId, sectionId)
         == CourseTier.CourseCOAttainmentOf(db, coId, courseId, sectionId)
  {
    var db' := db.(coPoMappings := mappings);
    match FindCourse(db.courses, courseId)
    case None =>
    case Some(course) =>
      var students := CourseTier.ScopeStudents(db, course, sectionId);
      assert CourseTier.ScopeStudents(db', course, sectionId) == students;
      forall k | 0 <= k < |students|
        ensures StudentTier.StudentCOAttainment(db', students[k].id, courseId, coId)
             == StudentTier.StudentCOAttainment(db, students[k].id, courseId, coId)
      {
      }
      assert CourseTier.Attainments(db', students, courseId, coId) == CourseTier.Attainments(db, students, courseId, coId);
  }

  /** Changing the CO–PO edges changes no edge's level. */
  lemma {:induction false} LevelsIgnoreEdges(db: Db, mappings: seq<CoPoMapping>, rows: seq<MappingRow>)
    ensures MapAll(rows, LevelOf(db.(coPoMappings := mappings))) == MapAll(rows, LevelOf(db))
  {
    if rows != [] {
      var n := |rows| - 1;
      LevelsIgnoreEdges(db, mappings, rows[..n]);
      CourseCOIgnoresEdges(db, mappings, rows[n].coId, rows[n].courseId, None);
    }
  }

  /** An edge outside the program joins to no row of the program. */
  lemma OutsideEdgeRows(db: Db, m: CoPoMapping, poId: Id, programId: Id)
    requires OutsideProgram(db, m, programId)
    ensures var extra := MappingRows(db.courseOutcomes, db.courses, [m], poId);
            extra.Some? && ProgramRows(extra.value, programId) == []
  {
    var extra := MappingRows(db.courseOutcomes, db.courses, [m], poId);
    var row := JoinMapping(db.courseOutcomes, db.courses, m).value;
    assert [m][1..] == [];
    assert MappingRows(db.courseOutcomes, db.courses, [], poId) == Some([]);
    if m.poId == poId {
      assert [row] + [] == [row];
      assert extra == Some([row]);
      assert [row][1..] == [];
    } else {
      assert extra == Some([]);
    }
  }

  /**
   * An edge outside the program, wherever it is stored among the others,
   * adds no row to the program outcome's program edges.
   */
  lemma OutsideProgramAddsNoRow(db: Db, a: seq<CoPoMapping>, m: CoPoMapping, b: seq<CoPoMapping>,
                                poId: Id, programId: Id)
    requires OutsideProgram(db, m, programId)
    ensures var joined := MappingRows(db.courseOutcomes, db.courses, a + b, poId);
            var joined' := MappingRows(db.courseOutcomes, db.courses, a + [m] + b, poId);
            joined'.Some? == joined.Some? &&
            (joined.Some? ==> ProgramRows(joined'.value, programId) == ProgramRows(joined.value, programId))
  {
    var cos, courses := db.courseOutcomes, db.courses;
    var ra, rb := MappingRows(cos, courses, a, poId), MappingRows(cos, courses, b, poId);
    var extra := MappingRows(cos, courses, [m], poId);
    OutsideEdgeRows(db, m, poId, programId);
    MappingRowsAppend(cos, courses, a, [m], poId);
    MappingRowsAppend(cos, courses, a + [m], b, poId);
    MappingRowsAppend(cos, courses, a, b, poId);
    if ra.Some? && rb.Some? {
      assert MappingRows(cos, courses, a + [m], poId) == Some(ra.value + extra.value);
      ProgramRowsAppend(ra.value, extra.value, programId);
      ProgramRowsAppend(ra.value + extra.value, rb.value, programId);
      ProgramRowsAppend(ra.value, rb.value, programId);
      assert ProgramRows(ra.value + extra.value, programId) == ProgramRows(ra.value, programId);
    }
  }

  lemma ProgramRowsAppend(x: seq<MappingRow>, y: seq<MappingRow>, programId: Id)
    ensures ProgramRows(x + y, programId) == ProgramRows(x, programId) + ProgramRows(y, programId)
  {
    FilterAppend(x, y, (r: MappingRow) => r.programId == programId);
  }

  /**
   * A CO–PO edge whose outcome's course lies outside the program does not
   * change the program outcome's direct attainment, wherever it is stored.
   */
  lemma OutsideProgramIgnored(db: Db, a: seq<CoPoMapping>, m: CoPoMapping, b: seq<CoPoMapping>,
                              poId: Id, programId: Id)
    requires OutsideProgram(db, m, programId)
    ensures DirectPOAttainmentOf(db.(coPoMappings := a + [m] + b), poId, programId)
         == DirectPOAttainmentOf(db.(coPoMappings := a + b), poId, programId)
  {
    var without := db.(coPoMappings := a + b);
    OutsideProgramAddsNoRow(db, a, m, b, poId, programId);
    assert without.(coPoMappings := a + [m] + b) == db.(coPoMappings := a + [m] + b);
    LevelsIgnoreEdges(without, a + [m] + b, ProgramMappingRows(without, poId, programId));
  }

  /**
   * One edge of the program outcome whose outcome or course is missing
   * makes the direct attainment 0, whatever the other edges say.
   */
  lemma DanglingEdgeZeroes(db: Db, m: CoPoMapping, poId: Id, programId: Id)
    requires Dangling(db, m, poId)
    ensures DirectPOAttainmentOf(db, poId, programId) == 0.0
  {
    JoinFailsOnDangling(db.courseOutcomes, db.courses, db.coPoMappings, poId);
  }

  /** A stored indirect score, or 3.0 when it is absent or 0 (the falsy values of the stored number). */
  function IndirectOrDefault(stored: Option<real>): (v: real)
    ensures v != 0.0
    ensures v == 3.0 || stored == Some(v)
    ensures stored.Some? && stored.value != 0.0 ==> v == stored.value
  {
    if stored.None? || stored.value == 0.0 then 3.0 else stored.value
  }

  const DefaultDirectWeight: real := 70.0
  const DefaultIndirectWeight: real := 30.0

  /** Linear blend with percentage weights, neither checked nor renormalised. */
  function Blend(direct: real, indirect: real, directWeight: real, indirectWeight: real): (b: real)
    ensures directWeight + indirectWeight == 100.0 ==> b == direct + (indirect - direct) * (indirectWeight / 100.0)
  {
    direct * (directWeight / 100.0) + indirect * (indirectWeight / 100.0)
  }

  /** Overall PO attainment, or PONotFound. */
  function OverallPOAttainmentOf(db: Db, poId: Id, programId: Id, directWeight: real, indirectWeight: real)
    : (r: Result<POAttainment, Error>)
    ensures r.Err? <==> forall po :: po in db.programOutcomes ==> po.id != poId
    ensures r.Err? ==> r.error == PONotFound
    ensures r.Ok? ==> r.value.poId == poId && r.value.directAttainment == DirectPOAttainmentOf(db, poId, programId)
    ensures r.Ok? ==> r.value.indirectAttainment != 0.0
    ensures r.Ok? ==>
      r.value.indirectAttainment == IndirectOrDefault(FindProgramOutcome(db.programOutcomes, poId).value.indirectAttainment) &&
      r.value.overallAttainment == Blend(r.value.directAttainment, r.value.indirectAttainment, directWeight, indirectWeight)
  {
    match FindProgramOutcome(db.programOutcomes, poId)
    case None => Err(PONotFound)
    case Some(po) =>
      var direct := DirectPOAttainmentOf(db, poId, programId);
      var indirect := IndirectOrDefault(po.indirectAttainment);
      Ok(POAttainment(poId, direct, indirect, Blend(direct, indirect, directWeight, indirectWeight)))
  }

  /** `calculateOverallPOAttainment`. */
  method CalculateOverallPOAttainment(db: Db, poId: Id, programId: Id, directWeight: real, indirectWeight: real)
    returns (r: Result<POAttainment, Error>)
    ensures r == OverallPOAttainmentOf(db, poId, programId, directWeight, indirectWeight)
  {
    var po := FindProgramOutcome(db.programOutcomes, poId);
    if po.None? {
      return Err(PONotFound);
    }
    var direct := CalculateDirectPOAttainment(db, poId, programId);
    var indirect := IndirectOrDefault(po.value.indirectAttainment);
    var overall := Blend(direct, indirect, directWeight, indirectWeight);
    r := Ok(POAttainment(poId, direct, indirect, overall));
  }

  /** With non-negative weights summing to 100, the blend lies between its two inputs. */
  lemma BlendBetween(direct: real, indirect: real, directWeight: real, indirectWeight: real)
    requires 0.0 <= directWeight && 0.0 <= indirectWeight && directWeight + indirectWeight == 100.0
    ensures var b := Blend(direct, indirect, directWeight, indirectWeight);
            (direct <= indirect ==> direct <= b <= indirect) &&
            (indirect <= direct ==> indirect <= b <= direct)
  {
    var b := Blend(direct, indirect, directWeight, indirectWeight);
    var dw, iw := directWeight / 100.0, indirectWeight / 100.0;
    assert dw + iw == 1.0 && 0.0 <= dw && 0.0 <= iw;
    assert b - direct == (indirect - direct) * iw;
    assert indirect - b == (indirect - direct) * dw;
    if direct <= indirect {
      ProductNonNegative(indirect - direct, iw);
      ProductNonNegative(indirect - direct, dw);
    }
    if indirect <= direct {
      ProductNonNegative(direct - indirect, iw);
      ProductNonNegative(direct - indirect, dw);
    }
  }

  lemma ProductNonNegative(a: real, b: real)
    requires 0.0 <= a && 0.0 <= b
    ensures 0.0 <= a * b
  {
  }

  /** Scaling both weights scales the blend: the weights are never renormalised to sum to 100. */
  lemma BlendNotRenormalised(direct: real, indirect: real, directWeight: real, indirectWeight: real, k: real)
    ensures Blend(direct, indirect, k * directWeight, k * indirectWeight)
         == k * Blend(direct, indirect, directWeight, indirectWeight)
  {
  }

  /** Direct 2.0 with no stored indirect score under the default 70/30 weights: 0.7 × 2.0 + 0.3 × 3.0 = 2.3. */
  lemma DefaultBlendExample()
    ensures IndirectOrDefault(None) == 3.0 && IndirectOrDefault(Some(0.0)) == 3.0
    ensures Blend(2.0, IndirectOrDefault(None), DefaultDirectWeight, DefaultIndirectWeight) == 2.3
  {
  }

  /**
   * With weights summing to 100, positive edge weights and a stored
   * indirect score on the 0..3 scale, the overall attainment is on the
   * 0..3 scale too.
   */
  lemma OverallOnLevelScale(db: Db, poId: Id, programId: Id, directWeight: real, indirectWeight: real)
    requires 0.0 <= directWeight && 0.0 <= indirectWeight && directWeight + indirectWeight == 100.0
    requires forall m :: m in db.coPoMappings && m.poId == poId ==> m.level > 0
    requires forall po :: po in db.programOutcomes && po.id == poId && po.indirectAttainment.Some? ==>
               0.0 <= po.indirectAttainment.value <= 3.0
    ensures var r := OverallPOAttainmentOf(db, poId, programId, directWeight, indirectWeight);
            r.Ok? ==> 0.0 <= r.value.overallAttainment <= 3.0
  {
    var r := OverallPOAttainmentOf(db, poId, programId, directWeight, indirectWeight);
    if r.Ok? {
      DirectBounds(db, poId, programId);
      BlendBetween(r.value.directAttainment, r.value.indirectAttainment, directWeight, indirectWeight);
    }
  }
}
