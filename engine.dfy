/**
 * `CPLCalculationEngine`: the object that owns the four computed tables and
 * updates them in place.  Each method does what its Python namesake does, step
 * by step, and is proved to leave exactly the state the corresponding
 * function of levels.dfy or pipeline.dfy describes.
 */
module Engine {
  import opened Wrappers
  import opened Rounding
  import opened Weighted
  import opened Classification
  import opened Levels
  import opened Store
  import opened Pipeline

  class CplCalculationEngine {
    /** The read-only tables the engine queries (its database connection). */
    const db: Db
    var nilaiSubcpmk: map<Key, SubCpmkRecord>
    var nilaiCpmk: map<Key, CpmkRecord>
    var capaianCplPerMk: map<Key, CplPerMkRecord>
    var capaianCplMahasiswa: map<Key, CplAggregateRecord>

    /** The four computed tables as one value. */
    function State(): Tables
      reads this
    {
      Tables(nilaiSubcpmk, nilaiCpmk, capaianCplPerMk, capaianCplMahasiswa)
    }

    constructor(connection: Db, stored: Tables)
      ensures db == connection && State() == stored
    {
      db := connection;
      nilaiSubcpmk := stored.nilaiSubcpmk;
      nilaiCpmk := stored.nilaiCpmk;
      capaianCplPerMk := stored.capaianCplPerMk;
      capaianCplMahasiswa := stored.capaianCplMahasiswa;
    }

    // -------------------------------------------------------------------------
    // Level 1
    // -------------------------------------------------------------------------

    /** The instrument-weighted average of the sub-CPMK's scores, stored when it exists. */
    method CalculateSubcpmkFromInstruments(enrollmentId: int, subCpmkId: int) returns (r: Option<real>)
      modifies this
      ensures r == WeightedAverage(InstrumentPairs(InstrumentRows(db, enrollmentId, subCpmkId)))
      ensures State() == Level1Step(old(State()), enrollmentId, subCpmkId, InstrumentRows(db, enrollmentId, subCpmkId))
    {
      var results := InstrumentRows(db, enrollmentId, subCpmkId);
      if |results| == 0 {
        return None;
      }
      ghost var pairs := InstrumentPairs(results);
      var totalWeighted, totalWeight := 0.0, 0.0;
      for i := 0 to |results|
        invariant totalWeighted == TotalContribution(pairs[..i])
        invariant totalWeight == TotalWeight(pairs[..i])
      {
        var nilai := results[i].nilaiAngka;
        var bobot := results[i].bobot;
        totalWeighted := totalWeighted + nilai * bobot;
        totalWeight := totalWeight + bobot;
        assert pairs[..i + 1][..i] == pairs[..i];
      }
      assert pairs[..|results|] == pairs;
      if totalWeight == 0.0 {
        return None;
      }
      var result := RoundHalfUp2(totalWeighted / totalWeight);
      SaveSubcpmkValue(enrollmentId, subCpmkId, result, |results|);
      return Some(result);
    }

    /** The upsert into `nilai_subcpmk`. */
    method SaveSubcpmkValue(enrollmentId: int, subCpmkId: int, nilai: real, jumlahInstrumen: nat)
      modifies this
      ensures State() == old(State()).(nilaiSubcpmk := old(nilaiSubcpmk)[(enrollmentId, subCpmkId) := SubCpmkRecordOf(nilai, jumlahInstrumen)])
    {
      var status := AchievementStatus(nilai);
      nilaiSubcpmk := nilaiSubcpmk[(enrollmentId, subCpmkId) := SubCpmkRecord(nilai, jumlahInstrumen, status)];
    }

    // -------------------------------------------------------------------------
    // Level 2
    // -------------------------------------------------------------------------

    /** The sub-CPMK-weighted average of the CPMK, stored; raises on a zero total weight. */
    method CalculateCpmkFromSubcpmk(enrollmentId: int, cpmkId: int) returns (r: Result<Option<real>, EngineError>)
      modifies this
      ensures (State(), r) == Level2Step(old(State()), enrollmentId, cpmkId, SubCpmkRows(db.subCpmk, old(nilaiSubcpmk), enrollmentId, cpmkId))
    {
      var results := SubCpmkRows(db.subCpmk, nilaiSubcpmk, enrollmentId, cpmkId);
      if |results| == 0 {
        return Ok(None);
      }
      var weightedValues := CpmkPairs(results);
      var result := WeightedAverage(weightedValues);
      var saved := SaveCpmkValue(enrollmentId, cpmkId, result);
      if saved.Fail? {
        return Err(saved.error);
      }
      return Ok(result);
    }

    /** The upsert into `nilai_cpmk`; deriving the status of a missing value raises. */
    method SaveCpmkValue(enrollmentId: int, cpmkId: int, nilai: Option<real>) returns (o: Outcome<EngineError>)
      modifies this
      ensures nilai.None? ==> o == Fail(NoneCompared) && State() == old(State())
      ensures nilai.Some? ==>
                && o == Pass
                && State() == old(State()).(nilaiCpmk := old(nilaiCpmk)[(enrollmentId, cpmkId) := CpmkRecordOf(nilai.value)])
    {
      if nilai.None? {
        return Fail(NoneCompared);
      }
      var status := AchievementStatus(nilai.value);
      nilaiCpmk := nilaiCpmk[(enrollmentId, cpmkId) := CpmkRecord(nilai.value, status)];
      return Pass;
    }

    // -------------------------------------------------------------------------
    // Level 3
    // -------------------------------------------------------------------------

    /** The contribution-weighted value of the CPL in the course, stored with the course's stage. */
    method CalculateCplFromMk(enrollmentId: int, cplId: int, mataKuliahId: int) returns (r: Result<Option<real>, EngineError>)
      modifies this
      ensures (State(), r) == Level3At(db, old(State()), enrollmentId, mataKuliahId, cplId)
    {
      var results := CpmkRows(db, nilaiCpmk, enrollmentId, cplId, mataKuliahId);
      if |results| == 0 {
        return Ok(None);
      }
      ghost var pairs := CplPairs(results);
      var totalContribution, totalPercent := 0.0, 0.0;
      for i := 0 to |results|
        invariant totalContribution == TotalContribution(pairs[..i])
        invariant totalPercent == TotalWeight(pairs[..i])
      {
        var nilaiCpmk := results[i].nilaiCpmk;
        var kontribusi := results[i].kontribusiPersen;
        totalContribution := totalContribution + nilaiCpmk * kontribusi;
        totalPercent := totalPercent + kontribusi;
        assert pairs[..i + 1][..i] == pairs[..i];
      }
      assert pairs[..|results|] == pairs;
      if totalPercent == 0.0 {
        return Ok(None);
      }
      var result := RoundHalfUp2(totalContribution / totalPercent);
      var mapping := StageMappingOf(db.cplMk, cplId, mataKuliahId);
      var status := if mapping.Some? then mapping.value.status else "R";
      var bobot := if mapping.Some? then mapping.value.bobotStatus else 1.0;
      var saved := SaveCplPerMk(enrollmentId, cplId, mataKuliahId, result, status, bobot);
      if saved.Fail? {
        return Err(saved.error);
      }
      return Ok(Some(result));
    }

    /**
     * The upsert into `capaian_cpl_per_mk`; subscripting a missing enrollment
     * or course row raises before anything is written.
     */
    method SaveCplPerMk(enrollmentId: int, cplId: int, mataKuliahId: int, nilai: real, status: string, bobot: real)
      returns (o: Outcome<EngineError>)
      modifies this
      ensures EnrollmentInfoOf(db, enrollmentId).None? ==> o == Fail(NoneSubscripted("enrollment")) && State() == old(State())
      ensures EnrollmentInfoOf(db, enrollmentId).Some? && CourseSks(db.mataKuliah, mataKuliahId).None? ==>
                o == Fail(NoneSubscripted("mata_kuliah")) && State() == old(State())
      ensures EnrollmentInfoOf(db, enrollmentId).Some? && CourseSks(db.mataKuliah, mataKuliahId).Some? ==>
                var info := EnrollmentInfoOf(db, enrollmentId).value;
                var rec := CplPerMkRecord(info.mahasiswaId, mataKuliahId, nilai, status, info.semesterTahun,
                                          CourseSks(db.mataKuliah, mataKuliahId).value, bobot);
                && o == Pass
                && State() == old(State()).(capaianCplPerMk := UpsertCplPerMk(old(capaianCplPerMk), (enrollmentId, cplId), rec))
    {
      var enrollData := EnrollmentInfoOf(db, enrollmentId);
      var mkData := CourseSks(db.mataKuliah, mataKuliahId);
      if enrollData.None? {
        return Fail(NoneSubscripted("enrollment"));
      }
      if mkData.None? {
        return Fail(NoneSubscripted("mata_kuliah"));
      }
      var rec := CplPerMkRecord(enrollData.value.mahasiswaId, mataKuliahId, nilai, status,
                                enrollData.value.semesterTahun, mkData.value, bobot);
      capaianCplPerMk := UpsertCplPerMk(capaianCplPerMk, (enrollmentId, cplId), rec);
      return Pass;
    }

    // -------------------------------------------------------------------------
    // Level 4
    // -------------------------------------------------------------------------

    /**
     * The student's aggregate of the CPL by the chosen method (by default
     * `weighted_by_status`), on the 0-4 scale, stored with its pass flag.
     */
    method CalculateAggregateCpl(mahasiswaId: int, cplId: int, calcMethod: string := DefaultMethod)
      returns (r: Result<Option<real>, EngineError>)
      modifies this
      ensures (State(), r) == Level4Step(old(State()), mahasiswaId, cplId, calcMethod,
                                         CplPerMkRows(db.enrollment, old(capaianCplPerMk), mahasiswaId, cplId),
                                         Threshold(db.cpl, cplId), LatestSemester(db, mahasiswaId))
    {
      var results := CplPerMkRows(db.enrollment, capaianCplPerMk, mahasiswaId, cplId);
      var percent := AggregateByMethod(calcMethod, results);
      if percent.Err? {
        return Err(percent.error);
      }
      if percent.value.None? {
        return Ok(None);
      }
      var result4Scale := RoundHalfUp2(percent.value.value / 25.0);
      var threshold := Threshold(db.cpl, cplId);
      if threshold.None? {
        return Err(NoneSubscripted("cpl"));
      }
      var status := CplStatusOf(Stages(results));
      var isPassing := result4Scale >= threshold.value;
      SaveAggregateCpl(mahasiswaId, cplId, result4Scale, |results|, TotalSks(results), status, isPassing);
      return Ok(Some(result4Scale));
    }

    /**
     * The branch on the method name inside `calculate_aggregate_cpl`: the
     * 0-100 result, None for no rows or no 'A' row under `last_assessment`,
     * or the exception it raises.  It computes the same thing as
     * `Levels.AggregatePercent` and is a method of its own only so that the
     * proof of `CalculateAggregateCpl` stays small.
     */
    method AggregateByMethod(calcMethod: string, results: seq<CplPerMkRow>)
      returns (r: Result<Option<real>, EngineError>)
      ensures r == AggregatePercent(calcMethod, results)
    {
      if |results| == 0 {
        return Ok(None);
      }
      if calcMethod == "simple" {
        r := Ok(Some(Mean(Contributions(results))));
      } else if calcMethod == "weighted_by_sks" {
        var average := WeightedAverage(SksPairs(results));
        if average.None? {
          return Err(NoneDivided);
        }
        r := Ok(Some(average.value));
      } else if calcMethod == "weighted_by_status" {
        var average := WeightedAverage(StatusPairs(results));
        if average.None? {
          return Err(NoneDivided);
        }
        r := Ok(Some(average.value));
      } else if calcMethod == "last_assessment" {
        var assessed := AssessedContributions(results);
        if |assessed| == 0 {
          return Ok(None);
        }
        r := Ok(Some(Mean(assessed)));
      } else {
        r := Err(UnknownMethod(calcMethod));
      }
    }

    /** The upsert into `capaian_cpl_mahasiswa`, stamped with the student's latest semester. */
    method SaveAggregateCpl(mahasiswaId: int, cplId: int, nilai: real, jumlahMk: nat, totalSks: int,
                            status: CplStatus, isPassing: bool)
      modifies this
      ensures State() == old(State()).(capaianCplMahasiswa := old(capaianCplMahasiswa)[(mahasiswaId, cplId) :=
                CplAggregateRecord(nilai, jumlahMk, totalSks, status, isPassing, LatestSemester(db, mahasiswaId))])
    {
      var semester := LatestSemester(db, mahasiswaId);
      capaianCplMahasiswa := capaianCplMahasiswa[(mahasiswaId, cplId) :=
        CplAggregateRecord(nilai, jumlahMk, totalSks, status, isPassing, semester)];
    }

    // -------------------------------------------------------------------------
    // The recalculation pipeline
    // -------------------------------------------------------------------------

    /** Levels 1 to 4 for one enrollment, in that order; see `Pipeline.RecalculateEnrollment`. */
    method RecalculateAllForEnrollment(enrollmentId: int) returns (o: Outcome<EngineError>)
      modifies this
      ensures (State(), o) == RecalculateEnrollment(db, old(State()), enrollmentId)
    {
      var enrollment := FindEnrollment(db.enrollment, enrollmentId);
      if enrollment.None? {
        return Fail(EnrollmentNotFound(enrollmentId));
      }
      var mahasiswaId := enrollment.value.mahasiswaId;
      var mataKuliahId := enrollment.value.mataKuliahId;

      var subcpmks := SubCpmkIdsOfCourse(db, mataKuliahId);
      ghost var t0 := State();
      for i := 0 to |subcpmks|
        invariant Level1Pass(db, State(), enrollmentId, subcpmks[i..]) == Level1Pass(db, t0, enrollmentId, subcpmks)
      {
        var value := CalculateSubcpmkFromInstruments(enrollmentId, subcpmks[i]);
        assert subcpmks[i..][1..] == subcpmks[i + 1..];
      }

      var cpmks := CpmkIdsOfCourse(db.cpmk, mataKuliahId);
      ghost var t1 := State();
      for i := 0 to |cpmks|
        invariant Level2Pass(db, State(), enrollmentId, cpmks[i..]) == Level2Pass(db, t1, enrollmentId, cpmks)
      {
        var value := CalculateCpmkFromSubcpmk(enrollmentId, cpmks[i]);
        if value.Err? {
          return Fail(value.error);
        }
        assert cpmks[i..][1..] == cpmks[i + 1..];
      }

      var cpls := CplIdsOfCourse(db.cplMk, mataKuliahId);
      ghost var t2 := State();
      for i := 0 to |cpls|
        invariant Level3Pass(db, State(), enrollmentId, mataKuliahId, cpls[i..]) == Level3Pass(db, t2, enrollmentId, mataKuliahId, cpls)
      {
        var value := CalculateCplFromMk(enrollmentId, cpls[i], mataKuliahId);
        if value.Err? {
          return Fail(value.error);
        }
        assert cpls[i..][1..] == cpls[i + 1..];
      }

      var allCpls := ActiveCplIds(db.cpl);
      ghost var t3 := State();
      for i := 0 to |allCpls|
        invariant Level4Pass(db, State(), mahasiswaId, allCpls[i..]) == Level4Pass(db, t3, mahasiswaId, allCpls)
      {
        var value := CalculateAggregateCpl(mahasiswaId, allCpls[i]);
        if value.Err? {
          return Fail(value.error);
        }
        assert allCpls[i..][1..] == allCpls[i + 1..];
      }
      return Pass;
    }

    /** The pipeline for each of the student's 'lulus' and 'aktif' enrollments; see `Pipeline.RecalculateStudent`. */
    method RecalculateAllForStudent(mahasiswaId: int) returns (o: Outcome<EngineError>)
      modifies this
      ensures (State(), o) == RecalculateStudent(db, old(State()), mahasiswaId)
    {
      var enrollments := EnrollmentIdsOfStudent(db.enrollment, mahasiswaId);
      ghost var t0 := State();
      for i := 0 to |enrollments|
        invariant RecalculateEnrollments(db, State(), enrollments[i..]) == RecalculateEnrollments(db, t0, enrollments)
      {
        var done := RecalculateAllForEnrollment(enrollments[i]);
        if done.Fail? {
          return done;
        }
        assert enrollments[i..][1..] == enrollments[i + 1..];
      }
      return Pass;
    }
  }
}
