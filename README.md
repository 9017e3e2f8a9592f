# Outcome-based attainment calculator, in Dafny

This project models `AttainmentCalculator`, the engine of the outcome-based
education system in `src/lib/attainment/calculator.ts`. The engine rolls raw
per-question marks up through three tiers:

1. **Student–CO attainment** (`StudentTier`). This is the percentage of marks a
   student obtained on the course's questions mapped to one course outcome (CO).
   The denominator counts only the questions the student has a mark row for.
2. **Course–CO attainment** (`CourseTier`). This counts the students in scope
   whose Tier 1 value reaches the course target. Scope is one section when a
   non-empty section id is given, otherwise the course's batch. The count
   becomes a percentage, which is classified into a level from 0 to 3 by a
   descending step function over the course's `level3`/`level2`/`level1`
   thresholds.
3. **Program–PO attainment** (`ProgramTier`). The *direct* attainment of a
   program outcome (PO) is the weighted average of the Tier 2 levels of the
   COs mapped to it. Only COs whose course belongs to the program count, and
   each weight is the CO–PO mapping's `level`. The *overall* attainment
   blends direct and indirect (survey) attainment with percentage weights,
   70/30 by default. A missing or zero indirect score becomes 3.0.
4. **Batch maps** (`Batch`). These compute Tier 3 for every PO of a program
   and Tier 2 for every CO of a course, in query order. The first error
   aborts the batch.

The store is replaced by an immutable snapshot, `Snapshot.Db`: one sequence
of rows per table, in query order. A lookup by primary key returns the first
row with that id. Each tier is a specification function over the snapshot.
Where the source loops with local accumulators (the students of Tier 2, the
edges of the direct attainment, the two batch maps), a method with loop
invariants proves that the loop computes that function. Lemmas state the
properties of the functions. Errors are `Result` values:

- a missing course is `CourseNotFound`;
- a missing PO is `PONotFound`.

Two error paths turn into a value. When an edge of the direct attainment
cannot be joined to its outcome and course, or when a Tier 2 computation
fails inside it, the direct attainment is 0.

Numbers are exact: `real` for marks, percentages, thresholds, levels
averaged and weights of the blend; `int` for the CO–PO mapping weight. JS
truthiness appears twice:

- `if (sectionId)` treats the empty string like no section;
- `indirectAttainment || 3.0` replaces both null and 0.

The overall attainment does not check that the PO belongs to the program
it is asked about; the model does not check either.

Module layout: `Wrappers` and `Sequences` (filter, find, and a map that
stops at the first error) in `sequences.dfy`; `Snapshot` in `snapshot.dfy`;
then `student_tier.dfy`, `course_tier.dfy`, `program_tier.dfy` and
`batch.dfy`, one per tier.

## Model

| member | source | states |
|---|---|---|
| Snapshot.FindCourse | src/lib/attainment/calculator.ts:101-113 | a found course is a row with the requested id; nothing is found exactly when no row has that id |
| Snapshot.FindProgramOutcome | src/lib/attainment/calculator.ts:255-263 | a found PO is a row with the requested id; nothing is found exactly when no row has that id |
| Snapshot.PercentageBounds | src/lib/attainment/calculator.ts:157 | a part no larger than a positive whole is a percentage in [0, 100] |
| StudentTier.StudentCOAttainment | src/lib/attainment/calculator.ts:28-89 | Tier 1 is 0 when the student has no mark row on a mapped question of the course, and 0 when the summed maximum marks of the mapped questions the student has a row for is 0; otherwise it is 100 × the student's summed marks over that sum |
| StudentTier.ZeroWithoutEvidence | src/lib/attainment/calculator.ts:55-71 | with no mapped question, or no mark row of the student on a mapped question, Tier 1 is exactly 0 |
| StudentTier.DenominatorOverScoredOnly | src/lib/attainment/calculator.ts:75-78 | the denominator is the sum of maximum marks over the scored questions only; unscored questions add nothing |
| StudentTier.RepeatedRowCountedOnce | src/lib/attainment/calculator.ts:74-78 | a second mark row on an already scored question adds its marks to the numerator and leaves the denominator unchanged |
| StudentTier.ObtainedWithinScored | src/lib/attainment/calculator.ts:74-78 | when each row is for a distinct mapped question and within its maximum, the obtained sum does not exceed the scored maximum |
| StudentTier.StudentCOAttainmentBounds | src/lib/attainment/calculator.ts:73-84 | on a snapshot with marks in [0, max] and one row per student and question, Tier 1 lies in [0, 100] |
| StudentTier.AttemptedTwoOfThree | src/lib/attainment/calculator.ts:74-84 | three 10-mark questions, two scored 8 and 9: the result is 85, not 100 × 17 / 30 |
| CourseTier.ScopeStudents | src/lib/attainment/calculator.ts:115-133 | a student is in scope exactly when it is in the snapshot and is in the given section, or, with no or an empty section id, in the course's batch |
| CourseTier.AttainmentLevel | src/lib/attainment/calculator.ts:160-167 | the level is in 0..3, and it is 3 whenever the percentage reaches `level3` |
| CourseTier.CourseCOAttainmentOf | src/lib/attainment/calculator.ts:94-180 | fails with CourseNotFound exactly when no course has the id; otherwise the record carries the CO id, total = the size of the scope, and the all-zero record when the scope is empty; for a non-empty scope, meeting = the number of students in scope whose Tier 1 value reaches the course target, percentage = 100 × meeting / total (in [0, 100]), and level = the step function of that percentage over the course's thresholds |
| CourseTier.CalculateCourseCOAttainment | src/lib/attainment/calculator.ts:115-175 | the loop that collects each student's Tier 1 value yields exactly the record of `CourseTier.CourseCOAttainmentOf` |
| CourseTier.CountMeetingExtremes | src/lib/attainment/calculator.ts:152-155 | the count equals the length exactly when every value reaches the target, and is 0 exactly when none does |
| CourseTier.MeetingCountExtremes | src/lib/attainment/calculator.ts:145-157 | for an existing course, everyone in scope meets the target exactly when meeting = total, and no one does exactly when meeting = 0 |
| CourseTier.CountMeetingAntitone | src/lib/attainment/calculator.ts:153-155 | raising the target never increases the number of students meeting it |
| CourseTier.LevelCountsThresholds | src/lib/attainment/calculator.ts:160-167 | with ordered thresholds the level is the number of thresholds reached, so a tie at a threshold earns the higher level |
| CourseTier.LevelMonotone | src/lib/attainment/calculator.ts:160-167 | with ordered thresholds a higher percentage never earns a lower level |
| CourseTier.LevelSteps | src/lib/attainment/calculator.ts:161-166 | under 40/60/80, the percentages 39.9, 40, 59.9, 60, 79.9, 80 and 100 earn 0, 1, 1, 2, 2, 3 and 3 |
| CourseTier.TwoOfThreeMeetTarget | src/lib/attainment/calculator.ts:145-175 | a course with target 60 and thresholds 40/60/80 whose three students in scope reach 75, 55 and 90 gets the record: level 2, 200/3 %, 2 meeting, 3 in total |
| ProgramTier.JoinMapping | src/lib/attainment/calculator.ts:191-205 | a joined edge keeps its CO and its weight, and carries the CO's own course and that course's program; the join fails exactly when the CO, or the CO's course, is missing |
| ProgramTier.MappingRows | src/lib/attainment/calculator.ts:191-214 | the joined edges of the PO: at most one row per edge (`ProgramTier.JoinedRowsComplete` and `ProgramTier.JoinedRowsResolve` give completeness and soundness of the rows) |
| ProgramTier.JoinedRowsComplete | src/lib/attainment/calculator.ts:191-205 | a successful join is complete: every edge of the PO joins, and its joined row is among the rows |
| ProgramTier.MappingRowsAppend | src/lib/attainment/calculator.ts:191-214 | joining the edges of two tables of mappings in turn joins their concatenation; one unjoinable edge makes the whole join fail |
| ProgramTier.JoinFailsOnDangling | src/lib/attainment/calculator.ts:211-214 | the join fails exactly when some edge of the PO lacks its outcome or that outcome's course |
| ProgramTier.JoinedRowsResolve | src/lib/attainment/calculator.ts:191-205 | every joined row comes from an edge of the PO with the same CO and the same weight, and its course is in the snapshot with the row's program |
| ProgramTier.Level | src/lib/attainment/calculator.ts:225-230 | the level an edge contributes is in 0..3 |
| ProgramTier.DirectPOAttainmentOf | src/lib/attainment/calculator.ts:185-243 | the direct attainment is 0 when the PO has no program edge, when the program edges' weights sum to 0, or when a Tier 2 computation fails; otherwise it is Σ level × weight / Σ weight over the program edges |
| ProgramTier.CalculateDirectPOAttainment | src/lib/attainment/calculator.ts:185-243 | the method returns exactly `ProgramTier.DirectPOAttainmentOf`, including each path to 0 |
| ProgramTier.AccumulateLevels | src/lib/attainment/calculator.ts:220-232 | the loop yields Σ level × weight and Σ weight over the edges, or the error of the first Tier 2 computation that fails |
| ProgramTier.RowLevel | src/lib/attainment/calculator.ts:225-230 | running Tier 2 on the whole course yields the edge's level, or its error |
| ProgramTier.DirectLevelsFound | src/lib/attainment/calculator.ts:225-242 | every Tier 2 computation the direct attainment makes finds its course, so the catch-to-0 is never reached from Tier 2 |
| ProgramTier.WeightedSumBounds | src/lib/attainment/calculator.ts:230-231 | with levels in 0..3 and positive weights, 0 ≤ Σ level × weight ≤ 3 × Σ weight, and Σ weight > 0 for a non-empty list |
| ProgramTier.WeightedSumUniform | src/lib/attainment/calculator.ts:230-231 | when every level is the same, Σ level × weight is that level times Σ weight |
| ProgramTier.DirectBounds | src/lib/attainment/calculator.ts:207-238 | with positive weights on the PO's edges, the direct attainment lies in [0, 3] |
| ProgramTier.DirectUniformLevel | src/lib/attainment/calculator.ts:220-238 | the direct attainment is a weighted average: when every program edge has the same level and the weights do not sum to 0, it is that level |
| ProgramTier.CourseCOIgnoresEdges | src/lib/attainment/calculator.ts:94-180 | Tier 2 does not depend on the CO–PO edges |
| ProgramTier.LevelsIgnoreEdges | src/lib/attainment/calculator.ts:224-232 | changing the CO–PO edges changes no edge's level |
| ProgramTier.OutsideProgramAddsNoRow | src/lib/attainment/calculator.ts:211-218 | an edge whose course lies in another program, stored anywhere among the other edges, leaves the join's success and the program's rows as they were |
| ProgramTier.OutsideProgramIgnored | src/lib/attainment/calculator.ts:211-218 | an edge whose course lies in another program, stored anywhere among the other edges, does not change the direct attainment |
| ProgramTier.DanglingEdgeZeroes | src/lib/attainment/calculator.ts:211-214 | one edge of the PO without its outcome or course makes the direct attainment 0, whatever the other edges are |
| ProgramTier.IndirectOrDefault | src/lib/attainment/calculator.ts:268-269 | the indirect score is never 0: a stored non-zero value is kept, and otherwise it is 3.0 |
| ProgramTier.OverallPOAttainmentOf | src/lib/attainment/calculator.ts:248-286 | fails with PONotFound exactly when no PO has the id; otherwise it carries the PO id, the direct attainment `ProgramTier.DirectPOAttainmentOf`, the indirect score of the PO's row or 3.0 in its place, and the overall attainment = the blend of those two under the given weights |
| ProgramTier.CalculateOverallPOAttainment | src/lib/attainment/calculator.ts:248-286 | the method returns exactly the record of `ProgramTier.OverallPOAttainmentOf` |
| ProgramTier.Blend | src/lib/attainment/calculator.ts:271-274 | with weights summing to 100, the overall attainment moves from the direct value towards the indirect one by the indirect weight's share |
| ProgramTier.BlendBetween | src/lib/attainment/calculator.ts:271-274 | with non-negative weights summing to 100, the overall attainment lies between the direct and the indirect one |
| ProgramTier.BlendNotRenormalised | src/lib/attainment/calculator.ts:271-274 | scaling both weights scales the result: the weights are never renormalised |
| ProgramTier.DefaultBlendExample | src/lib/attainment/calculator.ts:250-274 | 0 and a missing value both become 3.0; direct 2.0 under the default 70/30 weights gives 2.3 |
| ProgramTier.OverallOnLevelScale | src/lib/attainment/calculator.ts:248-286 | with weights summing to 100, positive edge weights and a stored indirect score in [0, 3], the overall attainment lies in [0, 3] |
| Batch.ProgramPOAttainmentsOf | src/lib/attainment/calculator.ts:291-312 | a successful batch holds, in order, the overall attainment (70/30 weights) of each PO of the program; a failed one carries the error of the first PO that fails |
| Batch.CalculateProgramPOAttainments | src/lib/attainment/calculator.ts:291-312 | the loop yields the overall attainment of every PO of the program in order, or the first error |
| Batch.ProgramPOAttainmentsComplete | src/lib/attainment/calculator.ts:296-307 | the program batch never fails and holds one record per PO of the program, in order, with its id and direct attainment |
| Batch.CourseCOAttainmentsOf | src/lib/attainment/calculator.ts:317-339 | a successful batch holds, in order, the Tier 2 record of each CO of the course; a failed one carries the error of the first CO that fails |
| Batch.CalculateCourseCOAttainments | src/lib/attainment/calculator.ts:317-339 | the loop yields the Tier 2 record of every CO of the course in order, or the first error |
| Batch.CourseBatchFails | src/lib/attainment/calculator.ts:323-334 | the course batch fails, with CourseNotFound, exactly when the course has COs but no course row |
| Batch.CourseBatchRecords | src/lib/attainment/calculator.ts:323-334 | a successful course batch holds one record per CO, in order, each over the same number of students in scope |
| Sequences.MapAllFirstErr | src/lib/attainment/calculator.ts:302-310 | a batch fails with the error of the first element that fails |

## Left out

- Database access, Prisma and `async`/`await` are not modelled. Each query reads the immutable snapshot, and `findMany` returns rows in the order of the snapshot's sequence.
- Store failures are not modelled, because a snapshot cannot fail. So the catch-to-0 of Tier 1 (calculator.ts:85-88) is never taken. The catch of the direct attainment (calculator.ts:239-242) is modelled for the two failures a snapshot can cause: an unjoinable edge, and a Tier 2 error.
- The `console.error` logging in the catch blocks is left out; only its effect is modelled (0, or the error passed on).
- IEEE-754 rounding and NaN are not modelled, since numbers are exact `real` values.
- `ProgramTier.IndirectOrDefault` covers null and 0 as the falsy stored values; NaN has no `real` counterpart.
- Tier 2's second course lookup (calculator.ts:123-132) is not modelled separately. On one snapshot it finds the course the first lookup found, so its "not found" branch cannot be taken.
- The `StudentCOAttainment` record shape (calculator.ts:3-7) is not modelled, because no operation of the calculator returns it. Tier 1 is a plain number.
- The React pages, HTTP routes, authentication and seed scripts are not part of this model.
