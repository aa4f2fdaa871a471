/**
 * The four calculation levels of the engine as functions on the stored
 * tables: each `LevelNStep` is one `calculate_*` call together with the
 * `_save_*` upsert it ends in.  Query results arrive as sequences of rows;
 * the class in engine.dfy runs these steps on its own fields.
 */
module Levels {
  import opened Wrappers
  import opened Rounding
  import opened Weighted
  import opened Classification

  /** A composite table key: (enrollment_id, x_id) or (mahasiswa_id, cpl_id). */
  type Key = (int, int)

  /** The ways a calculation stops with an exception. */
  datatype EngineError =
    | EnrollmentNotFound(enrollmentId: int)  // ValueError: the enrollment id does not resolve
    | UnknownMethod(calcMethod: string)          // ValueError: unrecognised level-4 method name
    | NoneCompared                           // TypeError: `None >= 85` in `_get_achievement_status`
    | NoneDivided                            // TypeError: `None / Decimal('25')` at level 4
    | NoneSubscripted(table: string)         // TypeError: a lookup found no row and the None was indexed

  /** A row of the level-1 query: a non-null instrument score and its `bobot_soal_persen`. */
  datatype InstrumentRow = InstrumentRow(nilaiAngka: real, bobot: real)
  /** A row of the level-2 query: a stored sub-CPMK value and the sub-CPMK's `bobot_persen`. */
  datatype SubCpmkRow = SubCpmkRow(nilaiKumulatif: real, bobotPersen: real)
  /** A row of the level-3 query: a stored CPMK value and its `kontribusi_persen` to the CPL. */
  datatype CpmkRow = CpmkRow(nilaiCpmk: real, kontribusiPersen: real)
  /** A row of the level-4 query: one course's stored contribution to the CPL. */
  datatype CplPerMkRow = CplPerMkRow(nilaiKontribusi: real, statusDalamMk: string, sksMk: int, bobotStatus: real)
  /** The `status` and `bobot_status` of a `cpl_mk_mapping` row. */
  datatype StageMapping = StageMapping(status: string, bobotStatus: real)
  /** The `mahasiswa_id` and `semester_tahun` of an enrollment. */
  datatype EnrollmentInfo = EnrollmentInfo(mahasiswaId: int, semesterTahun: string)

  /** A `nilai_subcpmk` row, keyed by (enrollment_id, sub_cpmk_id). */
  datatype SubCpmkRecord = SubCpmkRecord(nilaiKumulatif: real, jumlahInstrumen: nat, statusPencapaian: Achievement)
  /** A `nilai_cpmk` row, keyed by (enrollment_id, cpmk_id). */
  datatype CpmkRecord = CpmkRecord(nilaiKumulatif: real, statusPencapaian: Achievement)
  /** A `capaian_cpl_per_mk` row, keyed by (enrollment_id, cpl_id). */
  datatype CplPerMkRecord = CplPerMkRecord(
    mahasiswaId: int, mataKuliahId: int, nilaiKontribusi: real, statusDalamMk: string,
    semesterTahun: string, sksMk: int, bobotStatus: real)
  /** A `capaian_cpl_mahasiswa` row, keyed by (mahasiswa_id, cpl_id). */
  datatype CplAggregateRecord = CplAggregateRecord(
    nilaiKumulatif: real, jumlahMkBerkontribusi: nat, totalSksBerkontribusi: int,
    statusPencapaian: CplStatus, isMemenuhiStandard: bool, semesterTerakhirUpdate: Option<string>)

  /** The four tables the engine writes (the `last_calculated` timestamps are not modelled). */
  datatype Tables = Tables(
    nilaiSubcpmk: map<Key, SubCpmkRecord>,
    nilaiCpmk: map<Key, CpmkRecord>,
    capaianCplPerMk: map<Key, CplPerMkRecord>,
    capaianCplMahasiswa: map<Key, CplAggregateRecord>)

  lemma TotalsOfTwo(a: WeightedValue, b: WeightedValue)
    ensures TotalWeight([a, b]) == a.weight + b.weight
    ensures TotalContribution([a, b]) == a.Contribution() + b.Contribution()
  {
    assert [a, b][..1] == [a];
    assert [a][..0] == [];
    assert TotalWeight([a]) == a.weight;
    assert TotalContribution([a]) == a.Contribution();
  }

  lemma TotalsOfThree(a: WeightedValue, b: WeightedValue, c: WeightedValue)
    ensures TotalWeight([a, b, c]) == a.weight + b.weight + c.weight
    ensures TotalContribution([a, b, c]) == a.Contribution() + b.Contribution() + c.Contribution()
  {
    assert [a, b, c][..2] == [a, b];
    TotalsOfTwo(a, b);
  }

  // ---------------------------------------------------------------------------
  // Level 1: sub-CPMK from instrument scores
  // ---------------------------------------------------------------------------

  /** The (score, weight) pairs of the level-1 rows. */
  function InstrumentPairs(rows: seq<InstrumentRow>): seq<WeightedValue> {
    seq(|rows|, i requires 0 <= i < |rows| => WeightedValue(rows[i].nilaiAngka, rows[i].bobot))
  }

  /** The record `_save_subcpmk_value` stores for a value computed from `count` instruments. */
  function SubCpmkRecordOf(nilai: real, count: nat): SubCpmkRecord {
    SubCpmkRecord(nilai, count, AchievementStatus(nilai))
  }

  /** `calculate_subcpmk_from_instruments(enrollmentId, subCpmkId)` given the query's rows. */
  function Level1Step(t: Tables, enrollmentId: int, subCpmkId: int, rows: seq<InstrumentRow>): Tables {
    match WeightedAverage(InstrumentPairs(rows))
    case None => t
    case Some(v) =>
      t.(nilaiSubcpmk := t.nilaiSubcpmk[(enrollmentId, subCpmkId) := SubCpmkRecordOf(v, |rows|)])
  }

  /**
   * Level 1 writes nothing when there are no rows or their weights sum to 0;
   * otherwise it upserts, under its own key only, the weighted average, the
   * number of rows and the status derived from the value.
   */
  lemma Level1StepEffect(t: Tables, enrollmentId: int, subCpmkId: int, rows: seq<InstrumentRow>)
    ensures var t' := Level1Step(t, enrollmentId, subCpmkId, rows);
            && t'.nilaiCpmk == t.nilaiCpmk && t'.capaianCplPerMk == t.capaianCplPerMk
            && t'.capaianCplMahasiswa == t.capaianCplMahasiswa
            && (forall k :: k != (enrollmentId, subCpmkId) ==>
                  (k in t'.nilaiSubcpmk <==> k in t.nilaiSubcpmk) &&
                  (k in t.nilaiSubcpmk ==> t'.nilaiSubcpmk[k] == t.nilaiSubcpmk[k]))
            && (t' == t <== (|rows| == 0 || TotalWeight(InstrumentPairs(rows)) == 0.0))
            && (|rows| > 0 && TotalWeight(InstrumentPairs(rows)) != 0.0 ==>
                  var rec := t'.nilaiSubcpmk[(enrollmentId, subCpmkId)];
                  && Some(rec.nilaiKumulatif) == WeightedAverage(InstrumentPairs(rows))
                  && rec.jumlahInstrumen == |rows|
                  && rec.statusPencapaian == AchievementStatus(rec.nilaiKumulatif))
  {
  }

  /** The docstring example of level 1: {80 weight 20, 85 weight 30} gives 83. */
  lemma Level1Example(t: Tables, e: int, s: int)
    ensures var t' := Level1Step(t, e, s, [InstrumentRow(80.0, 20.0), InstrumentRow(85.0, 30.0)]);
            (e, s) in t'.nilaiSubcpmk && t'.nilaiSubcpmk[(e, s)] == SubCpmkRecord(83.0, 2, Baik)
  {
    var wvs := InstrumentPairs([InstrumentRow(80.0, 20.0), InstrumentRow(85.0, 30.0)]);
    assert wvs == [WeightedValue(80.0, 20.0), WeightedValue(85.0, 30.0)];
    TotalsOfTwo(wvs[0], wvs[1]);
    assert TotalContribution(wvs) / TotalWeight(wvs) == 83.0;
    RoundHalfUp2OnGrid(83.0);
    assert WeightedAverage(wvs) == Some(83.0);
  }

  // ---------------------------------------------------------------------------
  // Level 2: CPMK from sub-CPMKs
  // ---------------------------------------------------------------------------

  /** The level-2 pairs: weight `bobot_persen / 100`. */
  function CpmkPairs(rows: seq<SubCpmkRow>): seq<WeightedValue> {
    seq(|rows|, i requires 0 <= i < |rows| => WeightedValue(rows[i].nilaiKumulatif, rows[i].bobotPersen / 100.0))
  }

  /** The same rows weighted by the raw `bobot_persen`. */
  function CpmkPercentPairs(rows: seq<SubCpmkRow>): seq<WeightedValue> {
    seq(|rows|, i requires 0 <= i < |rows| => WeightedValue(rows[i].nilaiKumulatif, rows[i].bobotPersen))
  }

  /** The record `_save_cpmk_value` stores. */
  function CpmkRecordOf(nilai: real): CpmkRecord {
    CpmkRecord(nilai, AchievementStatus(nilai))
  }

  /**
   * `calculate_cpmk_from_subcpmk(enrollmentId, cpmkId)` given the query's rows.
   * The `None` of a zero total weight reaches `_get_achievement_status` unguarded
   * and raises before anything is written.
   */
  function Level2Step(t: Tables, enrollmentId: int, cpmkId: int, rows: seq<SubCpmkRow>): (Tables, Result<Option<real>, EngineError>) {
    if |rows| == 0 then (t, Ok(None))
    else
      match WeightedAverage(CpmkPairs(rows))
      case None => (t, Err(NoneCompared))
      case Some(v) =>
        (t.(nilaiCpmk := t.nilaiCpmk[(enrollmentId, cpmkId) := CpmkRecordOf(v)]), Ok(Some(v)))
  }

  /**
   * Level 2 returns None and writes nothing on no rows, fails with nothing
   * written when the weights sum to 0, and otherwise upserts the weighted
   * average under its own key only.  Dividing the weights by 100 does not
   * change the value: it is the average weighted by the raw percentages.
   */
  lemma {:induction false} Level2StepEffect(t: Tables, enrollmentId: int, cpmkId: int, rows: seq<SubCpmkRow>)
    ensures var (t', r) := Level2Step(t, enrollmentId, cpmkId, rows);
            && t'.nilaiSubcpmk == t.nilaiSubcpmk && t'.capaianCplPerMk == t.capaianCplPerMk
            && t'.capaianCplMahasiswa == t.capaianCplMahasiswa
            && (forall k :: k != (enrollmentId, cpmkId) ==>
                  (k in t'.nilaiCpmk <==> k in t.nilaiCpmk) &&
                  (k in t.nilaiCpmk ==> t'.nilaiCpmk[k] == t.nilaiCpmk[k]))
            && (|rows| == 0 ==> t' == t && r == Ok(None))
            && (|rows| > 0 && TotalWeight(CpmkPercentPairs(rows)) == 0.0 ==> t' == t && r == Err(NoneCompared))
            && (|rows| > 0 && TotalWeight(CpmkPercentPairs(rows)) != 0.0 ==>
                  && r.Ok? && r.value == WeightedAverage(CpmkPercentPairs(rows)) && r.value.Some?
                  && t'.nilaiCpmk[(enrollmentId, cpmkId)] == CpmkRecordOf(r.value.value))
  {
    var pct := CpmkPercentPairs(rows);
    assert WeightsDividedBy(CpmkPairs(rows), pct, 100.0);
    WeightedAverageScaleInvariant(CpmkPairs(rows), pct, 100.0);
    TotalsDividedBy(CpmkPairs(rows), pct, 100.0);
  }

  /** The docstring example of level 2: {85 at 30%, 90 at 40%, 80 at 30%} gives 85.5. */
  lemma Level2Example(t: Tables, e: int, c: int)
    ensures Level2Step(t, e, c, [SubCpmkRow(85.0, 30.0), SubCpmkRow(90.0, 40.0), SubCpmkRow(80.0, 30.0)]).1
         == Ok(Some(85.5))
  {
    var wvs := CpmkPairs([SubCpmkRow(85.0, 30.0), SubCpmkRow(90.0, 40.0), SubCpmkRow(80.0, 30.0)]);
    assert wvs == [WeightedValue(85.0, 0.3), WeightedValue(90.0, 0.4), WeightedValue(80.0, 0.3)];
    TotalsOfThree(wvs[0], wvs[1], wvs[2]);
    RoundHalfUp2OnGrid(85.5);
  }

  // ---------------------------------------------------------------------------
  // Level 3: CPL contribution of one course
  // ---------------------------------------------------------------------------

  /** The level-3 pairs: weight the raw `kontribusi_persen`. */
  function CplPairs(rows: seq<CpmkRow>): seq<WeightedValue> {
    seq(|rows|, i requires 0 <= i < |rows| => WeightedValue(rows[i].nilaiCpmk, rows[i].kontribusiPersen))
  }

  /** The stage of a course for a CPL: the mapping's, or stage 'R' with weight 1.0 when there is none. */
  function StageOf(mapping: Option<StageMapping>): (s: StageMapping)
    ensures mapping.None? ==> s == StageMapping("R", 1.0)
    ensures mapping.Some? ==> s == mapping.value
  {
    match mapping
    case Some(m) => m
    case None => StageMapping("R", 1.0)
  }

  /**
   * The upsert of `_save_cpl_per_mk`: a new key gets the whole record; on
   * conflict only `nilai_kontribusi` and `status_dalam_mk` are overwritten.
   */
  function UpsertCplPerMk(m: map<Key, CplPerMkRecord>, key: Key, rec: CplPerMkRecord): map<Key, CplPerMkRecord> {
    if key in m then m[key := m[key].(nilaiKontribusi := rec.nilaiKontribusi, statusDalamMk := rec.statusDalamMk)]
    else m[key := rec]
  }

  /**
   * After the upsert the key holds the new value and stage; every other
   * column keeps its first-inserted value; no other key changes; and
   * repeating the upsert changes nothing.
   */
  lemma UpsertCplPerMkKeepsFirstInserted(m: map<Key, CplPerMkRecord>, key: Key, rec: CplPerMkRecord)
    ensures var m' := UpsertCplPerMk(m, key, rec);
            && key in m'
            && m'[key].nilaiKontribusi == rec.nilaiKontribusi && m'[key].statusDalamMk == rec.statusDalamMk
            && (key in m ==> m'[key] == rec.(mahasiswaId := m[key].mahasiswaId, mataKuliahId := m[key].mataKuliahId,
                                             semesterTahun := m[key].semesterTahun, sksMk := m[key].sksMk,
                                             bobotStatus := m[key].bobotStatus))
            && (key !in m ==> m'[key] == rec)
            && (forall k :: k != key ==> (k in m' <==> k in m) && (k in m ==> m'[k] == m[k]))
            && UpsertCplPerMk(m', key, rec) == m'
  {
    var m' := UpsertCplPerMk(m, key, rec);
    assert UpsertCplPerMk(m', key, rec) == m'[key := m'[key]];
  }

  /**
   * `calculate_cpl_from_mk(enrollmentId, cplId, mataKuliahId)` given the query's
   * rows, the `cpl_mk_mapping` row, the enrollment and the course's `sks`.
   */
  function Level3Step(
    t: Tables, enrollmentId: int, cplId: int, mataKuliahId: int, rows: seq<CpmkRow>,
    mapping: Option<StageMapping>, enrollment: Option<EnrollmentInfo>, sks: Option<int>
  ): (Tables, Result<Option<real>, EngineError>)
  {
    match WeightedAverage(CplPairs(rows))
    case None => (t, Ok(None))
    case Some(v) =>
      var stage := StageOf(mapping);
      if enrollment.None? then (t, Err(NoneSubscripted("enrollment")))
      else if sks.None? then (t, Err(NoneSubscripted("mata_kuliah")))
      else
        var rec := CplPerMkRecord(enrollment.value.mahasiswaId, mataKuliahId, v, stage.status,
                                  enrollment.value.semesterTahun, sks.value, stage.bobotStatus);
        (t.(capaianCplPerMk := UpsertCplPerMk(t.capaianCplPerMk, (enrollmentId, cplId), rec)), Ok(Some(v)))
  }

  /**
   * Level 3 returns None and writes nothing on no rows or a zero total
   * contribution, fails with nothing written when the enrollment or the
   * course row is missing, and otherwise upserts the weighted average under
   * its own key only: the value and the stage (the mapping's, or 'R') are
   * written, and the other columns of a row already there are kept.
   */
  lemma {:induction false} Level3StepEffect(
    t: Tables, enrollmentId: int, cplId: int, mataKuliahId: int, rows: seq<CpmkRow>,
    mapping: Option<StageMapping>, enrollment: Option<EnrollmentInfo>, sks: Option<int>)
    ensures var (t', r) := Level3Step(t, enrollmentId, cplId, mataKuliahId, rows, mapping, enrollment, sks);
            var key, before := (enrollmentId, cplId), t.capaianCplPerMk;
            var stage := StageOf(mapping);
            && t'.nilaiSubcpmk == t.nilaiSubcpmk && t'.nilaiCpmk == t.nilaiCpmk
            && t'.capaianCplMahasiswa == t.capaianCplMahasiswa
            && (forall k :: k != key ==>
                  (k in t'.capaianCplPerMk <==> k in before) &&
                  (k in before ==> t'.capaianCplPerMk[k] == before[k]))
            && (|rows| == 0 || TotalWeight(CplPairs(rows)) == 0.0 ==> t' == t && r == Ok(None))
            && (|rows| > 0 && TotalWeight(CplPairs(rows)) != 0.0 && enrollment.None? ==>
                  t' == t && r == Err(NoneSubscripted("enrollment")))
            && (|rows| > 0 && TotalWeight(CplPairs(rows)) != 0.0 && enrollment.Some? && sks.None? ==>
                  t' == t && r == Err(NoneSubscripted("mata_kuliah")))
            && (|rows| > 0 && TotalWeight(CplPairs(rows)) != 0.0 && enrollment.Some? && sks.Some? ==>
                  && r.Ok? && r.value == WeightedAverage(CplPairs(rows)) && r.value.Some?
                  && key in t'.capaianCplPerMk
                  && t'.capaianCplPerMk[key].nilaiKontribusi == r.value.value
                  && t'.capaianCplPerMk[key].statusDalamMk == stage.status
                  && (key !in before ==>
                        t'.capaianCplPerMk[key] == CplPerMkRecord(enrollment.value.mahasiswaId, mataKuliahId, r.value.value,
                                                                 stage.status, enrollment.value.semesterTahun, sks.value,
                                                                 stage.bobotStatus))
                  && (key in before ==>
                        t'.capaianCplPerMk[key] == before[key].(nilaiKontribusi := r.value.value, statusDalamMk := stage.status)))
  {
    var (t', r) := Level3Step(t, enrollmentId, cplId, mataKuliahId, rows, mapping, enrollment, sks);
    var w := WeightedAverage(CplPairs(rows));
    if w.Some? && enrollment.Some? && sks.Some? {
      var stage := StageOf(mapping);
      var rec := CplPerMkRecord(enrollment.value.mahasiswaId, mataKuliahId, w.value, stage.status,
                                enrollment.value.semesterTahun, sks.value, stage.bobotStatus);
      UpsertCplPerMkKeepsFirstInserted(t.capaianCplPerMk, (enrollmentId, cplId), rec);
    }
  }

  /** The docstring example of level 3: {85.5 contributing 60, 75.0 contributing 40} gives 81.3. */
  lemma Level3Example(t: Tables, e: int, p: int, mk: int, info: EnrollmentInfo, sks: int)
    ensures Level3Step(t, e, p, mk, [CpmkRow(85.5, 60.0), CpmkRow(75.0, 40.0)], None, Some(info), Some(sks))
         == (t.(capaianCplPerMk := UpsertCplPerMk(t.capaianCplPerMk, (e, p),
               CplPerMkRecord(info.mahasiswaId, mk, 81.3, "R", info.semesterTahun, sks, 1.0))), Ok(Some(81.3)))
  {
    var wvs := CplPairs([CpmkRow(85.5, 60.0), CpmkRow(75.0, 40.0)]);
    assert wvs == [WeightedValue(85.5, 60.0), WeightedValue(75.0, 40.0)];
    TotalsOfTwo(wvs[0], wvs[1]);
    RoundHalfUp2OnGrid(81.3);
  }

  // ---------------------------------------------------------------------------
  // Level 4: CPL aggregate of one student
  // ---------------------------------------------------------------------------

  /** The method `calculate_aggregate_cpl` uses when none is given. */
  const DefaultMethod: string := "weighted_by_status"

  /** The four method names level 4 recognises. */
  predicate KnownMethod(calcMethod: string) {
    calcMethod == "simple" || calcMethod == "weighted_by_sks" || calcMethod == DefaultMethod || calcMethod == "last_assessment"
  }

  /** The `nilai_kontribusi` column. */
  function Contributions(rows: seq<CplPerMkRow>): seq<real> {
    seq(|rows|, i requires 0 <= i < |rows| => rows[i].nilaiKontribusi)
  }

  /** The `status_dalam_mk` column. */
  function Stages(rows: seq<CplPerMkRow>): seq<string> {
    seq(|rows|, i requires 0 <= i < |rows| => rows[i].statusDalamMk)
  }

  /** Contributions weighted by the course's credits. */
  function SksPairs(rows: seq<CplPerMkRow>): seq<WeightedValue> {
    seq(|rows|, i requires 0 <= i < |rows| => WeightedValue(rows[i].nilaiKontribusi, rows[i].sksMk as real))
  }

  /** Contributions weighted by the stage weight. */
  function StatusPairs(rows: seq<CplPerMkRow>): seq<WeightedValue> {
    seq(|rows|, i requires 0 <= i < |rows| => WeightedValue(rows[i].nilaiKontribusi, rows[i].bobotStatus))
  }

  /** The indices of the rows at stage 'A' whose contribution is `x`. */
  ghost function AssessedRowsWithValue(rows: seq<CplPerMkRow>, x: real): set<int> {
    set i | 0 <= i < |rows| && rows[i].statusDalamMk == "A" && rows[i].nilaiKontribusi == x
  }

  /**
   * The contributions of the rows whose stage is exactly 'A', in order: every
   * 'A' row's value occurs, and no other value does.
   */
  function AssessedContributions(rows: seq<CplPerMkRow>): (vs: seq<real>)
    ensures forall i :: 0 <= i < |rows| && rows[i].statusDalamMk == "A" ==> rows[i].nilaiKontribusi in vs
    ensures forall x :: x in vs ==> exists i :: 0 <= i < |rows| && rows[i].statusDalamMk == "A" && rows[i].nilaiKontribusi == x
    ensures |vs| == 0 <==> forall i :: 0 <= i < |rows| ==> rows[i].statusDalamMk != "A"
  {
    if rows == [] then []
    else
      var n := |rows| - 1;
      var init := AssessedContributions(rows[..n]);
      assert forall i :: 0 <= i < n ==> rows[..n][i] == rows[i];
      init + if rows[n].statusDalamMk == "A" then [rows[n].nilaiKontribusi] else []
  }

  /** Each value occurs in `AssessedContributions` once per 'A' row that carries it. */
  lemma {:induction false} AssessedContributionsCount(rows: seq<CplPerMkRow>, x: real)
    ensures multiset(AssessedContributions(rows))[x] == |AssessedRowsWithValue(rows, x)|
  {
    if rows != [] {
      var n := |rows| - 1;
      var init := AssessedContributions(rows[..n]);
      var last := if rows[n].statusDalamMk == "A" then [rows[n].nilaiKontribusi] else [];
      assert AssessedContributions(rows) == init + last;
      assert multiset(init + last) == multiset(init) + multiset(last);
      AssessedContributionsCount(rows[..n], x);
      AssessedRowsWithValueOfLast(rows, x);
      if rows[n].statusDalamMk == "A" && rows[n].nilaiKontribusi == x {
        assert multiset(last)[x] == 1;
      } else {
        assert multiset(last)[x] == 0;
      }
    }
  }

  /** The 'A' rows carrying `x` are those before the last row, plus the last row when it is one. */
  lemma AssessedRowsWithValueOfLast(rows: seq<CplPerMkRow>, x: real)
    requires |rows| > 0
    ensures var n := |rows| - 1;
            var before := AssessedRowsWithValue(rows[..n], x);
            && n !in before
            && (rows[n].statusDalamMk == "A" && rows[n].nilaiKontribusi == x ==>
                  AssessedRowsWithValue(rows, x) == before + {n})
            && (!(rows[n].statusDalamMk == "A" && rows[n].nilaiKontribusi == x) ==>
                  AssessedRowsWithValue(rows, x) == before)
  {
    var n := |rows| - 1;
    assert forall i :: 0 <= i < n ==> rows[..n][i] == rows[i];
  }

  /** The total weight `_weighted_average` would divide by is zero: the `None` it returns reaches `/ 25`. */
  function DivisibleOrFail(avg: Option<real>): Result<Option<real>, EngineError> {
    match avg
    case None => Err(NoneDivided)
    case Some(x) => Ok(Some(x))
  }

  /**
   * The 0-100 `result` of `calculate_aggregate_cpl` before the division by 25:
   * Ok(None) when it returns None early (no rows, or no 'A' row for
   * `last_assessment`), an error when it raises.
   */
  function AggregatePercent(calcMethod: string, rows: seq<CplPerMkRow>): Result<Option<real>, EngineError> {
    if |rows| == 0 then Ok(None)
    else if calcMethod == "simple" then Ok(Some(Mean(Contributions(rows))))
    else if calcMethod == "weighted_by_sks" then DivisibleOrFail(WeightedAverage(SksPairs(rows)))
    else if calcMethod == "weighted_by_status" then DivisibleOrFail(WeightedAverage(StatusPairs(rows)))
    else if calcMethod == "last_assessment" then
      var assessed := AssessedContributions(rows);
      if |assessed| == 0 then Ok(None) else Ok(Some(Mean(assessed)))
    else Err(UnknownMethod(calcMethod))
  }

  /** `sum(int(r['sks_mk']) for r in results)`. */
  function TotalSks(rows: seq<CplPerMkRow>): int {
    if rows == [] then 0 else TotalSks(rows[..|rows| - 1]) + rows[|rows| - 1].sksMk
  }

  /** The 0-4 value: the 0-100 result divided by 25 and rounded to cents. */
  function FourPointScale(x: real): real {
    RoundHalfUp2(x / 25.0)
  }

  /**
   * `calculate_aggregate_cpl(mahasiswaId, cplId, method)` given the query's
   * rows, the CPL's `nilai_minimum_kelulusan` (None when the CPL row is
   * missing) and the student's latest semester.
   */
  function Level4Step(
    t: Tables, mahasiswaId: int, cplId: int, calcMethod: string, rows: seq<CplPerMkRow>,
    threshold: Option<real>, latestSemester: Option<string>
  ): (Tables, Result<Option<real>, EngineError>)
  {
    match AggregatePercent(calcMethod, rows)
    case Err(e) => (t, Err(e))
    case Ok(None) => (t, Ok(None))
    case Ok(Some(x)) =>
      var v := FourPointScale(x);
      if threshold.None? then (t, Err(NoneSubscripted("cpl")))
      else
        var rec := CplAggregateRecord(v, |rows|, TotalSks(rows), CplStatusOf(Stages(rows)),
                                      v >= threshold.value, latestSemester);
        (t.(capaianCplMahasiswa := t.capaianCplMahasiswa[(mahasiswaId, cplId) := rec]), Ok(Some(v)))
  }

  /**
   * With no rows level 4 returns None and writes nothing, whatever the method,
   * even an unknown one; with rows an unknown method raises and writes nothing.
   */
  lemma Level4NoRowsBeforeUnknownMethod(t: Tables, m: int, c: int, calcMethod: string, rows: seq<CplPerMkRow>,
                                         threshold: Option<real>, sem: Option<string>)
    ensures |rows| == 0 ==> Level4Step(t, m, c, calcMethod, rows, threshold, sem) == (t, Ok(None))
    ensures |rows| > 0 && !KnownMethod(calcMethod) ==>
              Level4Step(t, m, c, calcMethod, rows, threshold, sem) == (t, Err(UnknownMethod(calcMethod)))
  {
  }

  /**
   * The dispatch: `simple` is the exact mean, the two weighted methods are
   * `_weighted_average` by `sks_mk` and by `bobot_status` (raising when the
   * weights sum to 0), and `last_assessment` is the mean of the 'A' rows, or
   * None when there is none.
   */
  lemma AggregatePercentDispatch(rows: seq<CplPerMkRow>)
    requires |rows| > 0
    ensures AggregatePercent("simple", rows) == Ok(Some(Sum(Contributions(rows)) / |rows| as real))
    ensures TotalWeight(SksPairs(rows)) == 0.0 <==> AggregatePercent("weighted_by_sks", rows) == Err(NoneDivided)
    ensures TotalWeight(SksPairs(rows)) != 0.0 ==>
              AggregatePercent("weighted_by_sks", rows) == Ok(WeightedAverage(SksPairs(rows)))
    ensures TotalWeight(StatusPairs(rows)) == 0.0 <==> AggregatePercent("weighted_by_status", rows) == Err(NoneDivided)
    ensures TotalWeight(StatusPairs(rows)) != 0.0 ==>
              AggregatePercent("weighted_by_status", rows) == Ok(WeightedAverage(StatusPairs(rows)))
    ensures (forall i :: 0 <= i < |rows| ==> rows[i].statusDalamMk != "A") <==>
              AggregatePercent("last_assessment", rows) == Ok(None)
    ensures (exists i :: 0 <= i < |rows| && rows[i].statusDalamMk == "A") ==>
              AggregatePercent("last_assessment", rows) == Ok(Some(Mean(AssessedContributions(rows))))
  {
    assert "weighted_by_sks" != "simple";
    assert "weighted_by_status" != "simple" && "weighted_by_status" != "weighted_by_sks";
    assert "last_assessment" != "simple" && "last_assessment" != "weighted_by_sks"
        && "last_assessment" != "weighted_by_status";
    assert AggregatePercent("simple", rows) == Ok(Some(Mean(Contributions(rows))));
    assert AggregatePercent("weighted_by_sks", rows) == DivisibleOrFail(WeightedAverage(SksPairs(rows)));
    assert AggregatePercent("weighted_by_status", rows) == DivisibleOrFail(WeightedAverage(StatusPairs(rows)));
    var assessed := AssessedContributions(rows);
    var r := AggregatePercent("last_assessment", rows);
    assert r == if |assessed| == 0 then Ok(None) else Ok(Some(Mean(assessed)));
    if forall i :: 0 <= i < |rows| ==> rows[i].statusDalamMk != "A" {
      assert r == Ok(None);
    } else {
      assert |assessed| != 0;
      assert r == Ok(Some(Mean(assessed)));
    }
  }

  /**
   * The stored aggregate: the 0-4 value, its pass flag against the CPL's
   * minimum, the number of rows, their total credits and the strongest stage.
   */
  lemma Level4StepEffect(t: Tables, m: int, c: int, calcMethod: string, rows: seq<CplPerMkRow>,
                         threshold: Option<real>, sem: Option<string>)
    ensures var (t', r) := Level4Step(t, m, c, calcMethod, rows, threshold, sem);
            && t'.nilaiSubcpmk == t.nilaiSubcpmk && t'.nilaiCpmk == t.nilaiCpmk
            && t'.capaianCplPerMk == t.capaianCplPerMk
            && (forall k :: k != (m, c) ==>
                  (k in t'.capaianCplMahasiswa <==> k in t.capaianCplMahasiswa) &&
                  (k in t.capaianCplMahasiswa ==> t'.capaianCplMahasiswa[k] == t.capaianCplMahasiswa[k]))
            && (!r.Ok? || r.value.None? ==> t' == t)
            && (r.Ok? && r.value.Some? ==>
                  && AggregatePercent(calcMethod, rows).Ok? && AggregatePercent(calcMethod, rows).value.Some?
                  && r.value.value == FourPointScale(AggregatePercent(calcMethod, rows).value.value)
                  && threshold.Some?
                  && t'.capaianCplMahasiswa[(m, c)]
                     == CplAggregateRecord(r.value.value, |rows|, TotalSks(rows), CplStatusOf(Stages(rows)),
                                           r.value.value >= threshold.value, sem))
  {
    var (t', r) := Level4Step(t, m, c, calcMethod, rows, threshold, sem);
    match AggregatePercent(calcMethod, rows)
    case Err(_) =>
    case Ok(None) =>
    case Ok(Some(x)) =>
      if threshold.Some? {
        var v := FourPointScale(x);
        var rec := CplAggregateRecord(v, |rows|, TotalSks(rows), CplStatusOf(Stages(rows)), v >= threshold.value, sem);
        assert t' == t.(capaianCplMahasiswa := t.capaianCplMahasiswa[(m, c) := rec]) && r == Ok(Some(v));
      }
  }

  /**
   * With every contribution in [0, 100] and non-negative credits and stage
   * weights, a stored level-4 value is a whole number of cents in [0, 4].
   */
  lemma {:induction false} Level4ValueOnFourPointScale(t: Tables, m: int, c: int, calcMethod: string, rows: seq<CplPerMkRow>,
                                                       threshold: Option<real>, sem: Option<string>)
    requires forall i :: 0 <= i < |rows| ==>
               0.0 <= rows[i].nilaiKontribusi <= 100.0 && 0 <= rows[i].sksMk && 0.0 <= rows[i].bobotStatus
    ensures var r := Level4Step(t, m, c, calcMethod, rows, threshold, sem).1;
            r.Ok? && r.value.Some? ==> OnCentGrid(r.value.value) && 0.0 <= r.value.value <= 4.0
  {
    var r := AggregatePercent(calcMethod, rows);
    if r.Ok? && r.value.Some? {
      AggregatePercentWithinBounds(calcMethod, rows);
      FourPointScaleBounds(r.value.value);
    }
  }

  /** With every contribution in [0, 100], a level-4 percentage lies in [0, 100]. */
  lemma AggregatePercentWithinBounds(calcMethod: string, rows: seq<CplPerMkRow>)
    requires forall i :: 0 <= i < |rows| ==>
               0.0 <= rows[i].nilaiKontribusi <= 100.0 && 0 <= rows[i].sksMk && 0.0 <= rows[i].bobotStatus
    requires AggregatePercent(calcMethod, rows).Ok? && AggregatePercent(calcMethod, rows).value.Some?
    ensures 0.0 <= AggregatePercent(calcMethod, rows).value.value <= 100.0
  {
    assert OnCentGrid(0.0) && OnCentGrid(100.0);
    if calcMethod == "simple" {
      MeanWithinBounds(Contributions(rows), 0.0, 100.0);
    } else if calcMethod == "weighted_by_sks" {
      assert Bounded(SksPairs(rows), 0.0, 100.0);
      WeightedAverageWithinBounds(SksPairs(rows), 0.0, 100.0);
    } else if calcMethod == "weighted_by_status" {
      assert Bounded(StatusPairs(rows), 0.0, 100.0);
      WeightedAverageWithinBounds(StatusPairs(rows), 0.0, 100.0);
    } else {
      var assessed := AssessedContributions(rows);
      forall i | 0 <= i < |assessed| ensures 0.0 <= assessed[i] <= 100.0 {
        assert assessed[i] in assessed;
      }
      MeanWithinBounds(assessed, 0.0, 100.0);
    }
  }

  /** A percentage in [0, 100] becomes a whole number of cents in [0, 4]. */
  lemma FourPointScaleBounds(x: real)
    requires 0.0 <= x <= 100.0
    ensures OnCentGrid(FourPointScale(x)) && 0.0 <= FourPointScale(x) <= 4.0
  {
    RoundHalfUp2Monotone(0.0, x / 25.0);
    RoundHalfUp2Monotone(x / 25.0, 4.0);
    RoundHalfUp2OnGrid(0.0);
    RoundHalfUp2OnGrid(4.0);
  }

  /**
   * For the weighted methods the value is rounded to cents before the
   * division by 25 and again after it; the stored value is nonetheless the
   * exact weighted average divided by 25 and rounded once.
   */
  lemma {:induction false} WeightedDoubleRoundingHarmless(calcMethod: string, rows: seq<CplPerMkRow>)
    requires calcMethod == "weighted_by_sks" || calcMethod == "weighted_by_status"
    requires AggregatePercent(calcMethod, rows).Ok? && AggregatePercent(calcMethod, rows).value.Some?
    ensures var wvs := if calcMethod == "weighted_by_sks" then SksPairs(rows) else StatusPairs(rows);
            TotalWeight(wvs) != 0.0 &&
            FourPointScale(AggregatePercent(calcMethod, rows).value.value)
              == RoundHalfUp2(TotalContribution(wvs) / TotalWeight(wvs) / 25.0)
  {
    var wvs := if calcMethod == "weighted_by_sks" then SksPairs(rows) else StatusPairs(rows);
    RoundThenQuarterScale(TotalContribution(wvs) / TotalWeight(wvs));
  }

  /**
   * A level-4 example with the default method: stage weights 2.0 ('A') and
   * 0.5 ('I') on the course values 90 and 70 give 86.00 on the 0-100 scale and
   * 3.44 on the 0-4 scale, which meets a minimum of 3.0; the stored record
   * counts two courses of 5 credits in all, at the 'assessed' stage.
   */
  lemma Level4Example(t: Tables, m: int, c: int, sem: Option<string>)
    ensures var (t', r) := Level4Step(t, m, c, DefaultMethod,
                                      [CplPerMkRow(90.0, "A", 3, 2.0), CplPerMkRow(70.0, "I", 2, 0.5)], Some(3.0), sem);
            && r == Ok(Some(3.44))
            && (m, c) in t'.capaianCplMahasiswa
            && t'.capaianCplMahasiswa[(m, c)] == CplAggregateRecord(3.44, 2, 5, Assessed, true, sem)
            && t'.capaianCplMahasiswa[(m, c)].isMemenuhiStandard
  {
    var rows := [CplPerMkRow(90.0, "A", 3, 2.0), CplPerMkRow(70.0, "I", 2, 0.5)];
    var wvs := StatusPairs(rows);
    assert wvs == [WeightedValue(90.0, 2.0), WeightedValue(70.0, 0.5)];
    TotalsOfTwo(wvs[0], wvs[1]);
    assert TotalContribution(wvs) / TotalWeight(wvs) == 86.0;
    RoundHalfUp2OnGrid(86.0);
    assert AggregatePercent(DefaultMethod, rows) == Ok(Some(86.0));
    RoundHalfUp2OnGrid(3.44);
    assert FourPointScale(86.0) == 3.44;
    assert rows[..1] == [rows[0]] && [rows[0]][..0] == [];
    assert TotalSks(rows) == 5;
    assert Stages(rows) == ["A", "I"];
    assert "A" in Stages(rows);
  }
}
