# CPL calculation engine — a Dafny model

This project models the outcome-based-education (OBE) calculation core of a
curriculum-measurement system, together with its web access rules:

- **The calculation engine** (`desain/03_Calculation_Engine.py`). It computes
  four levels of achievement values. Each level reads the values stored by the
  level below:
  1. a sub-CPMK value per enrollment, from instrument scores weighted by instrument weight;
  2. a CPMK value per enrollment, from sub-CPMK values weighted by `bobot_persen / 100`;
  3. a per-course CPL (program learning outcome) contribution per enrollment, from CPMK values
     weighted by raw `kontribusi_persen`, stored together with the course's I/R/M/A stage;
  4. a student's aggregate CPL value on the 0–4 scale, by one of four methods
     (`simple`, `weighted_by_sks`, `weighted_by_status` — the default — and `last_assessment`),
     with a pass flag against the CPL's minimum.

  Each level ends in an upsert into its table (`nilai_subcpmk`, `nilai_cpmk`,
  `capaian_cpl_per_mk`, `capaian_cpl_mahasiswa`). Two recalculation pipelines run the
  levels in order, one for an enrollment and one for a student.
- **The routing middleware** (`middleware.ts`). It decides whether a request goes
  through, is redirected to `/login`, `/dashboard` or `/admin`, or gets a 403 answer.
- **The session predicates** (`lib/auth.ts`): `hasRole`, `hasPermission`, `hasAnyRole`,
  `hasAnyPermission`, `isAdmin`, `isLecturer` and `isStudent`.

Layout:

| file | module | contents |
|---|---|---|
| wrappers.dfy | `Wrappers` | `Option`, `Result`, `Outcome` |
| rounding.dfy | `Rounding` | `quantize(Decimal('0.01'), ROUND_HALF_UP)` on exact rationals |
| weighted.dfy | `Weighted` | `WeightedValue`, `_weighted_average`, the exact mean |
| classification.dfy | `Classification` | achievement status, CPL status, letter grade, GPA |
| levels.dfy | `Levels` | the stored records and the four levels as functions on the tables |
| store.dfy | `Store` | the read-only tables and the engine's SQL queries |
| pipeline.dfy | `Pipeline` | both recalculation pipelines as functions, and their theorems |
| engine.dfy | `Engine` | class `CplCalculationEngine`: the four tables as fields, and the Python methods with their loops |
| middleware.dfy | `Middleware` | the routing decision |
| auth.dfy | `Auth` | the session predicates |

Modelling choices:

- `Decimal` values are exact `real`s. The two-place `ROUND_HALF_UP` rounding
  (`RoundHalfUp2`) is exact: ties go away from zero.
- An exception becomes an `EngineError` value. A method stops at the first one.
  Writes made before the exception stay, as they do in the source.
- The engine class holds the four tables it writes as `map` fields. It holds the
  tables it only reads as a `Db` value.
- Each `calculate_*` method is proved to leave exactly the state that a pure step
  function on `Tables` describes (`Level1Step` … `Level4Step`). The theorems are
  proved about those functions.

Behaviour of the code as written that a reader might not expect:

- The level-4 method is chosen by name, and the default is `weighted_by_status`
  (`desain/03_Calculation_Engine.py:326`). The credit-weighted method is
  `weighted_by_sks` (`:362`).
- At level 2, a zero total weight does not return null. The `None` from
  `_weighted_average` reaches `_get_achievement_status` and raises a `TypeError`.
  Nothing is written (`:166-169`, `:180`).
- At level 4, a zero total weight for a weighted method raises at the
  division by 25 (`:396`).
- An unknown level-4 method raises only when there are rows. With no rows the
  early `None` return comes first (`:355-356`, `:393`).
- Stage weights at level 4 come from the stored `bobot_status` column (`:376`).
  The docstring's table I = 0.5, R = 1.0, M = 1.5, A = 2.0 (`:334-335`) is not
  applied by the code.
- When level 3 updates an existing row, it overwrites only `nilai_kontribusi` and
  `status_dalam_mk`. The student, course, semester, credits and stage weight keep
  their first-inserted values (`:299-303`).

Results worth knowing:

- The weighted level-4 methods round twice: once in `_weighted_average`, then
  again after the division by 25. This double rounding never changes the stored
  value (`Levels.WeightedDoubleRoundingHarmless`).
- The middleware's two redirects to `/admin` can never fire, because `/admin` is on
  both allow-lists (`Middleware.ResponsesReachable`).

## Model

| member | source | states |
|---|---|---|
| `Rounding.RoundHalfUp2` | desain/03_Calculation_Engine.py:88 | the two-place rounding lands on whole cents in (x − 0.005, x + 0.005] for x ≥ 0 and in [x − 0.005, x + 0.005) below 0: a tie goes away from zero |
| `Rounding.OneCentValuePerInterval` | desain/03_Calculation_Engine.py:88 | only one whole number of cents lies in such a half-open interval, so the bounds above fix the rounded value |
| `Rounding.RoundHalfUp2Odd` | desain/03_Calculation_Engine.py:88 | ROUND_HALF_UP is symmetric: rounding `-x` gives minus the rounding of `x` |
| `Rounding.RoundHalfUp2OnGrid` | desain/03_Calculation_Engine.py:88 | a value already in whole cents is left unchanged |
| `Rounding.RoundHalfUp2Monotone` | desain/03_Calculation_Engine.py:88 | rounding preserves order |
| `Rounding.RoundThenQuarterScale` | desain/03_Calculation_Engine.py:396 | rounding to cents, dividing by 25 and rounding again equals dividing by 25 and rounding once |
| `Weighted.WeightedValue.Contribution` | desain/03_Calculation_Engine.py:22-24 | no contract of its own: `value × weight`; what the sums of contributions satisfy is stated by `Weighted.TotalContributionBounds` and `Weighted.WeightedAverage` |
| `Weighted.WeightedAverage` | desain/03_Calculation_Engine.py:549-560 | None exactly when the list is empty or the weights sum to 0; otherwise whole cents within the same half-open interval around the exact weighted average as `RoundHalfUp2`, which fixes the ROUND_HALF_UP value, tie included |
| `Weighted.Mean` | desain/03_Calculation_Engine.py:358-360 | `sum(values) / len(values)` is exact (not rounded) and non-negative for non-negative values |
| `Weighted.TotalContributionBounds` | desain/03_Calculation_Engine.py:15-24 | with non-negative weights and values in [lo, hi], the sum of contributions lies between lo and hi times the total weight |
| `Weighted.WeightedAverageWithinBounds` | desain/03_Calculation_Engine.py:549-560 | with non-negative weights and values in [lo, hi] (lo, hi in whole cents), the weighted average lies in [lo, hi] |
| `Weighted.TotalsDividedBy` | desain/03_Calculation_Engine.py:158-164 | dividing every weight by d divides both totals by d |
| `Weighted.WeightedAverageScaleInvariant` | desain/03_Calculation_Engine.py:158-166 | dividing every weight by a positive d leaves the weighted average unchanged |
| `Weighted.MeanWithinBounds` | desain/03_Calculation_Engine.py:358-360 | the mean of values in [lo, hi] lies in [lo, hi] |
| `Weighted.SumBounds` | desain/03_Calculation_Engine.py:358-360 | n values in [lo, hi] sum to between n·lo and n·hi |
| `Classification.AchievementStatus` | desain/03_Calculation_Engine.py:562-571 | the four bands `sangat_baik` ≥ 85 > `baik` ≥ 70 > `cukup` ≥ 55 > `kurang`, each closed below |
| `Classification.AchievementStatusMonotone` | desain/03_Calculation_Engine.py:562-571 | a higher value never gets a lower status |
| `Classification.CplStatusOf` | desain/03_Calculation_Engine.py:573-586 | `assessed` if an 'A' stage is present, else `master` if 'M', else `reinforce` if 'R', else `introduce` if 'I', else `belum_dimulai` |
| `Classification.CplStatusIsStrongestStage` | desain/03_Calculation_Engine.py:573-586 | the status ranks at least as high as every stage present, and it is one of the stages present unless it is `belum_dimulai` |
| `Classification.LetterGrade` | desain/03_Calculation_Engine.py:588-607 | the grade is the band of breakpoints 85/80/75/70/65/60/55/50, each closed below; 'E' exactly below 50 |
| `Classification.Gpa` | desain/03_Calculation_Engine.py:609-622 | an unknown grade gives 0.00; every GPA lies in [0, 4] |
| `Classification.LetterGradeMonotone` | desain/03_Calculation_Engine.py:588-622 | a higher score never gets a lower GPA |
| `Levels.Level1Step` | desain/03_Calculation_Engine.py:41-118 | no contract of its own: `calculate_subcpmk_from_instruments` with its save; what it writes and returns is stated by `Levels.Level1StepEffect` |
| `Levels.Level1StepEffect` | desain/03_Calculation_Engine.py:41-118 | level 1 writes nothing on no rows or zero total weight; otherwise it upserts, under its own key only, the weighted average, the row count and the derived status |
| `Levels.Level1Example` | desain/03_Calculation_Engine.py:51-56 | {80 weight 20, 85 weight 30} stores 83 with status `baik` |
| `Levels.Level2Step` | desain/03_Calculation_Engine.py:124-194 | no contract of its own: `calculate_cpmk_from_subcpmk` with its save; stated by `Levels.Level2StepEffect` |
| `Levels.Level2StepEffect` | desain/03_Calculation_Engine.py:124-194 | level 2 returns None on no rows, raises with nothing written on zero total weight, and otherwise stores the average weighted by the raw percentages under its own key only |
| `Levels.Level2Example` | desain/03_Calculation_Engine.py:135-140 | {85 at 30%, 90 at 40%, 80 at 30%} gives 85.5 |
| `Levels.StageOf` | desain/03_Calculation_Engine.py:261-266 | a missing `cpl_mk_mapping` row gives stage 'R' with weight 1.0 |
| `Levels.UpsertCplPerMkKeepsFirstInserted` | desain/03_Calculation_Engine.py:294-316 | the level-3 upsert sets value and stage, keeps the other columns of an existing row, touches no other key, and is idempotent |
| `Levels.Level3Step` | desain/03_Calculation_Engine.py:200-316 | no contract of its own: `calculate_cpl_from_mk` with its save; stated by `Levels.Level3StepEffect` |
| `Levels.Level3StepEffect` | desain/03_Calculation_Engine.py:200-316 | level 3 returns None with nothing written on no rows or a zero total contribution (`:235-250`), raises with nothing written when the enrollment or the course row is missing (`:288-291`, `:307-315`), and otherwise returns the weighted average and upserts it with the mapping's stage, or 'R', under the (enrollment, CPL) key only, keeping the other columns of a row already there |
| `Levels.Level3Example` | desain/03_Calculation_Engine.py:213-218 | CPMK 85.5 at 60% and 75.0 at 40% give 81.3, stored with the default stage |
| `Levels.AssessedContributions` | desain/03_Calculation_Engine.py:383-387 | every 'A' row's contribution occurs among the `last_assessment` values and no other value does; empty exactly when no row is 'A' |
| `Levels.AssessedContributionsCount` | desain/03_Calculation_Engine.py:383-387 | each value occurs as many times as there are 'A' rows carrying it |
| `Levels.AggregatePercent` | desain/03_Calculation_Engine.py:353-393 | no contract of its own: the branch on the method name; its cases are stated by `Levels.AggregatePercentDispatch` and its bounds by `Levels.AggregatePercentWithinBounds` |
| `Levels.Level4Step` | desain/03_Calculation_Engine.py:322-458 | no contract of its own: `calculate_aggregate_cpl` with its save; stated by `Levels.Level4StepEffect` and `Levels.Level4ValueOnFourPointScale` |
| `Levels.Level4NoRowsBeforeUnknownMethod` | desain/03_Calculation_Engine.py:353-356 | with no rows level 4 returns None for any method name; with rows an unknown name raises, writing nothing |
| `Levels.AggregatePercentDispatch` | desain/03_Calculation_Engine.py:358-393 | `simple` is the exact mean; the weighted methods use `sks_mk` and `bobot_status` and raise on zero total weight; `last_assessment` gives None exactly when no row is 'A', and otherwise the exact mean of the 'A' rows' contributions |
| `Levels.Level4StepEffect` | desain/03_Calculation_Engine.py:322-458 | the stored aggregate is the 0–4 value, the pass flag `value >= threshold`, the row count, the total credits, the strongest stage and the latest semester, under the (student, CPL) key only |
| `Levels.AggregatePercentWithinBounds` | desain/03_Calculation_Engine.py:358-390 | with contributions in [0, 100] and non-negative credits and stage weights, every method's 0–100 result lies in [0, 100] |
| `Levels.Level4ValueOnFourPointScale` | desain/03_Calculation_Engine.py:396 | with contributions in [0, 100] and non-negative weights, a stored level-4 value is in whole cents within [0, 4] |
| `Levels.WeightedDoubleRoundingHarmless` | desain/03_Calculation_Engine.py:372-396 | for the weighted methods, rounding before the division by 25 gives the same value as dividing the exact average |
| `Levels.Level4Example` | desain/03_Calculation_Engine.py:372-405 | with the default method, {90 stage A weight 2.0, 70 stage I weight 0.5} returns 3.44 and stores 3.44 for 2 courses and 5 credits at the `assessed` stage, flagged as meeting the 3.0 minimum |
| `Store.FindEnrollment` | desain/03_Calculation_Engine.py:470-478 | finds an enrollment with the id, None exactly when none has it |
| `Store.CourseSks` | desain/03_Calculation_Engine.py:290-291 | the credits of a course with the id, None exactly when there is no such course |
| `Store.EnrollmentInfoOf` | desain/03_Calculation_Engine.py:282-288 | the student and semester of an enrollment with the id whose course exists; None exactly when no enrollment with the id has an existing course, the case in which the save subscripts `None` |
| `Store.StageMappingOf` | desain/03_Calculation_Engine.py:253-259 | a stage mapping row of the (CPL, course) pair, None exactly when there is none |
| `Store.Threshold` | desain/03_Calculation_Engine.py:398-401 | the minimum of a CPL row with the id, None exactly when there is none |
| `Store.SubCpmkIdsOfCourse` | desain/03_Calculation_Engine.py:484-489 | exactly the sub-CPMKs whose CPMK belongs to the course |
| `Store.CpmkIdsOfCourse` | desain/03_Calculation_Engine.py:496-500 | exactly the CPMKs of the course |
| `Store.CplIdsOfCourse` | desain/03_Calculation_Engine.py:507-511 | exactly the CPLs mapped to the course |
| `Store.ActiveCplIds` | desain/03_Calculation_Engine.py:518-519 | exactly the CPLs with `status_aktif` |
| `Store.EnrollmentIdsOfStudent` | desain/03_Calculation_Engine.py:531-538 | exactly the student's enrollments with status 'lulus' or 'aktif' |
| `Store.Distinct` | desain/03_Calculation_Engine.py:485 | `SELECT DISTINCT` keeps every value once and no value twice |
| `Store.InstrumentRows` | desain/03_Calculation_Engine.py:57-68 | a row is an instrument score of the enrollment that is not NULL, paired with the weight of a mapping of that instrument to the sub-CPMK |
| `Store.SubCpmkRows` | desain/03_Calculation_Engine.py:142-151 | a row is the stored value of a sub-CPMK of the CPMK, paired with its `bobot_persen` |
| `Store.CpmkRows` | desain/03_Calculation_Engine.py:220-231 | a row is the stored value of a CPMK of the course mapped to the CPL, paired with its `kontribusi_persen` |
| `Store.CplPerMkRows` | desain/03_Calculation_Engine.py:339-351 | a row is a stored contribution of the student to the CPL through an enrollment with status 'lulus' or 'aktif' |
| `Pipeline.Settled1Iff` | desain/03_Calculation_Engine.py:41-118 | a stored sub-CPMK value is consistent with the scores exactly when one more level-1 run changes nothing |
| `Pipeline.Level1PassSettles` | desain/03_Calculation_Engine.py:492-493 | the level-1 loop makes every listed sub-CPMK consistent, keeps consistent ones so, and writes only the enrollment's `nilai_subcpmk` rows |
| `Pipeline.Level1PassOfSettled` | desain/03_Calculation_Engine.py:492-493 | the level-1 loop over consistent sub-CPMKs changes nothing |
| `Pipeline.Settled2Iff` | desain/03_Calculation_Engine.py:124-194 | a stored CPMK value is consistent exactly when one more level-2 run succeeds and changes nothing |
| `Pipeline.Level2PassSettles` | desain/03_Calculation_Engine.py:503-504 | a level-2 loop that does not raise makes every listed CPMK consistent; it writes only the enrollment's `nilai_cpmk` rows |
| `Pipeline.Level2PassOfSettled` | desain/03_Calculation_Engine.py:503-504 | the level-2 loop over consistent CPMKs succeeds and changes nothing |
| `Pipeline.Level3AtEffect` | desain/03_Calculation_Engine.py:200-316 | level 3 writes only the (enrollment, CPL) row of `capaian_cpl_per_mk`, and a successful run leaves that row consistent |
| `Pipeline.Settled3Iff` | desain/03_Calculation_Engine.py:200-316 | a stored contribution is consistent exactly when one more level-3 run succeeds and changes nothing |
| `Pipeline.Level3PassSettles` | desain/03_Calculation_Engine.py:514-515 | a level-3 loop that does not raise makes every listed CPL consistent; it writes only the enrollment's `capaian_cpl_per_mk` rows |
| `Pipeline.Level3PassOfSettled` | desain/03_Calculation_Engine.py:514-515 | the level-3 loop over consistent CPLs succeeds and changes nothing |
| `Pipeline.Settled4Iff` | desain/03_Calculation_Engine.py:322-458 | a stored aggregate is consistent exactly when one more default-method level-4 run succeeds and changes nothing |
| `Pipeline.Level4PassSettles` | desain/03_Calculation_Engine.py:521-522 | a level-4 loop that does not raise makes every listed CPL's aggregate consistent; it writes only the student's `capaian_cpl_mahasiswa` rows |
| `Pipeline.Level4PassOfSettled` | desain/03_Calculation_Engine.py:521-522 | the level-4 loop over consistent aggregates succeeds and changes nothing |
| `Pipeline.RecalculateEnrollment` | desain/03_Calculation_Engine.py:464-524 | no contract of its own: `recalculate_all_for_enrollment`; stated by `Pipeline.RecalculateEnrollmentEffect`, `Pipeline.ConsistentIffFixpoint` and `Pipeline.RecalculateEnrollmentIdempotent` |
| `Pipeline.RecalculateEnrollmentEffect` | desain/03_Calculation_Engine.py:464-524 | an unknown enrollment raises with nothing written; otherwise only the enrollment's rows and its student's aggregates change, and a run that does not raise leaves every level consistent |
| `Pipeline.ConsistentIffFixpoint` | desain/03_Calculation_Engine.py:464-524 | the tables are consistent for an enrollment exactly when its pipeline succeeds without changing them |
| `Pipeline.RecalculateEnrollmentIdempotent` | desain/03_Calculation_Engine.py:464-524 | running the enrollment pipeline again after a successful run changes nothing |
| `Pipeline.CourseSettledFrame` | desain/03_Calculation_Engine.py:142-231 | levels 1 to 3 of an enrollment read only that enrollment's rows of `nilai_subcpmk`, `nilai_cpmk` and `capaian_cpl_per_mk`, so writes under other enrollments keep them consistent |
| `Pipeline.RecalculateEnrollmentsEndsWithLast` | desain/03_Calculation_Engine.py:540-541 | a run over several enrollments that does not raise ends with a successful run of the last one |
| `Pipeline.RecalculateEnrollmentsLastConsistent` | desain/03_Calculation_Engine.py:540-541 | after a run over several enrollments that does not raise, the tables are consistent for the last one |
| `Pipeline.RecalculateEnrollmentsFrame` | desain/03_Calculation_Engine.py:540-541 | a run over a student's enrollments writes only those enrollments' rows and that student's aggregates |
| `Pipeline.RecalculateEnrollmentsCoursesSettled` | desain/03_Calculation_Engine.py:540-541 | after a run over a student's enrollments that does not raise, levels 1 to 3 are consistent for every one of them |
| `Pipeline.RecalculateStudent` | desain/03_Calculation_Engine.py:526-543 | no contract of its own: `recalculate_all_for_student`; stated by `Pipeline.RecalculateStudentEffect` |
| `Pipeline.RecalculateStudentEffect` | desain/03_Calculation_Engine.py:526-543 | only the student's counted enrollments and aggregates change; a student without any is untouched; after a run that does not raise, one more level-4 pass changes nothing and the tables are consistent for every one of the counted enrollments |
| `Engine.CplCalculationEngine.constructor` | desain/03_Calculation_Engine.py:33-35 | the engine starts with the given connection and stored tables |
| `Engine.CplCalculationEngine.CalculateSubcpmkFromInstruments` | desain/03_Calculation_Engine.py:41-93 | the accumulation loop returns `_weighted_average` of the query rows and leaves the level-1 state |
| `Engine.CplCalculationEngine.SaveSubcpmkValue` | desain/03_Calculation_Engine.py:95-118 | upserts the value, count and status under the (enrollment, sub-CPMK) key, nothing else |
| `Engine.CplCalculationEngine.CalculateCpmkFromSubcpmk` | desain/03_Calculation_Engine.py:124-171 | returns and stores what the level-2 step describes |
| `Engine.CplCalculationEngine.SaveCpmkValue` | desain/03_Calculation_Engine.py:173-194 | a missing value raises with nothing written; otherwise upserts value and status under the (enrollment, CPMK) key |
| `Engine.CplCalculationEngine.CalculateCplFromMk` | desain/03_Calculation_Engine.py:200-269 | the accumulation loop returns and stores what the level-3 step describes |
| `Engine.CplCalculationEngine.SaveCplPerMk` | desain/03_Calculation_Engine.py:271-316 | a missing enrollment or course row raises with nothing written; otherwise the upsert of the contribution |
| `Engine.CplCalculationEngine.CalculateAggregateCpl` | desain/03_Calculation_Engine.py:322-414 | with the default method `weighted_by_status`, returns and stores what the level-4 step describes (its stored record and frame are `Levels.Level4StepEffect`) |
| `Engine.CplCalculationEngine.AggregateByMethod` | desain/03_Calculation_Engine.py:355-393 | the branch on the method name returns the level-4 percentage whose cases `Levels.AggregatePercentDispatch` states, and changes nothing |
| `Engine.CplCalculationEngine.SaveAggregateCpl` | desain/03_Calculation_Engine.py:416-458 | upserts the aggregate under the (student, CPL) key, stamped with the latest semester |
| `Engine.CplCalculationEngine.RecalculateAllForEnrollment` | desain/03_Calculation_Engine.py:464-524 | the four loops leave exactly the state and outcome of the enrollment pipeline |
| `Engine.CplCalculationEngine.RecalculateAllForStudent` | desain/03_Calculation_Engine.py:526-543 | the loop leaves exactly the state and outcome of the student pipeline |
| `Middleware.Decide` | middleware.ts:5-135 | no contract of its own: `middleware(req)`; stated by the lemmas below |
| `Middleware.AnyPrefix` | middleware.ts:37 | `paths.some(p => pathname.startsWith(p))` holds exactly when some listed path is a prefix |
| `Middleware.UnauthenticatedRequests` | middleware.ts:6-14 | without a token, every path except `/login*` and `/api/auth*` is redirected to /login; those two pass |
| `Middleware.AuthenticatedLoginPage` | middleware.ts:17-19 | a signed-in request for `/login*` goes to /dashboard before any role check |
| `Middleware.AdminPages` | middleware.ts:26-65 | under /admin, neither `admin` nor `prodi` goes to /dashboard and either role passes |
| `Middleware.LecturerAndStudentPages` | middleware.ts:68-79 | /lecturer and /student pages pass with the matching role and otherwise go to /dashboard |
| `Middleware.AdminApi` | middleware.ts:82-120 | /api/admin: neither role is refused; admin alone passes only its two endpoints; prodi alone only its list; both always pass |
| `Middleware.LecturerAndStudentApi` | middleware.ts:122-132 | /api/lecturer and /api/student pass with the matching role and otherwise get 403 |
| `Middleware.UnguardedPathsPass` | middleware.ts:135 | a signed-in request outside every guarded prefix passes |
| `Middleware.ResponsesReachable` | middleware.ts:5-135 | redirects go only to /login (without a token) or /dashboard, never to /admin; a 403 only answers a signed-in /api/ request |
| `Auth.HasRole` | lib/auth.ts:11-13 | false when the session, user or roles are missing; otherwise whether the roles contain the name |
| `Auth.HasPermission` | lib/auth.ts:15-17 | the same over permissions |
| `Auth.HasAnyRole` | lib/auth.ts:19-21 | true exactly when some listed name is a role of the session |
| `Auth.HasAnyPermission` | lib/auth.ts:23-25 | true exactly when some listed name is a permission of the session |
| `Auth.IsAdmin` | lib/auth.ts:27-29 | the session's roles contain 'admin' |
| `Auth.IsLecturer` | lib/auth.ts:31-33 | the session's roles contain 'lecturer' |
| `Auth.IsStudent` | lib/auth.ts:35-37 | the session's roles contain 'student' |
| `Auth.HasAnyRoleSharesARole` | lib/auth.ts:11-21 | `hasAnyRole` holds exactly when the two role lists share a name; false for no session or an empty list; a one-name list is `hasRole` |
| `Auth.HasAnyRoleAppend` | lib/auth.ts:19-21 | asking about a concatenation of lists is asking about either list |
| `Auth.HasAnyPermissionAppend` | lib/auth.ts:23-25 | the same for permissions |

## Left out

- SQL execution, the `NOW()` timestamps in `last_calculated`, the `print` calls and the usage examples (`desain/03_Calculation_Engine.py:625-660`) are not modelled. Queries are functions of a read-only snapshot and of the engine's own tables.
- Python's 28-significant-digit `Decimal` context is not modelled. Values are exact rationals, so a quotient that Python rounds at the 28th digit before `quantize` may, at a tie, round differently.
- The `Decimal(str(...))` conversions are the identity. NULL is modelled only for `nilai_angka`; every other column is non-NULL, so the `IS NOT NULL` filters on stored values never drop a row.
- The query for the latest semester orders by `tanggal_daftar`, a column not in the model. Its answer is the `Db.latestSemester` map.
- The join through `instrumen_penilaian` assumes every scored instrument exists. `semester_target` is read by the source but never used, and is not modelled.
- Query rows come in table order; SQL leaves the order open, and the model fixes it to the order of the snapshot's tables. The value one level step computes does not depend on that order under exact arithmetic. The rows a pass writes do: when a level-2 step (desain/03_Calculation_Engine.py:180) or a level-4 step (:396) raises part-way through a pass, the rows written before the exception depend on the order of the id lists. The CPMK list (:496-500), the active-CPL list (:518-519) and the student's enrollment list (:540) have no ORDER BY. The model covers one fixed order and does not state what happens under the others.
- `Store.InstrumentRows`: states which rows occur, not how many times each occurs.
- `Store.SubCpmkRows`: states which rows occur, not how many times each occurs.
- `Store.CpmkRows`: states which rows occur, not how many times; a CPMK id present twice in `cpmk` yields one row, where SQL would yield two.
- `Store.CplPerMkRows`: states which rows occur, not how many times each occurs.
- `Pipeline.RecalculateStudentEffect`: assumes enrollment ids are unique, as a primary key makes them.
- `Pipeline.RecalculateEnrollmentsCoursesSettled`: assumes enrollment ids are unique and all listed enrollments belong to one student, as they do in `recalculate_all_for_student`.
- `Pipeline.RecalculateEnrollmentsFrame`: the same assumptions.
- The Python exception types and messages are not modelled. Each raise is an `EngineError` value naming its cause.
- The middleware's `withAuth` wrapper and its always-true `authorized` callback, the route `matcher` (`middleware.ts:137-157`), URL construction from `req.url` and the JSON body of the 403 are not modelled. A redirect is modelled by its path.
- `getServerAuthSession` (`lib/auth.ts:7-9`) and the `authOptions` re-export are not modelled, because they call next-auth. The `PERMISSIONS` table of permission names (`lib/auth.ts:39-77`) holds constants only and is not modelled.
