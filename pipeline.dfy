/**
 * The recalculation pipeline as functions: `recalculate_all_for_enrollment`
 * runs level 1 over the course's sub-CPMKs, level 2 over its CPMKs, level 3
 * over its CPLs and level 4 (default method) over every active CPL, each
 * level reading what the previous one stored; `recalculate_all_for_student`
 * runs that for each of the student's counted enrollments.  An exception
 * stops the run where it is raised, keeping the writes made before it.
 *
 * The main results: a successful run leaves the tables CONSISTENT (every
 * stored value of the enrollment is what its level computes from the values
 * stored below it), a consistent state is exactly a state the pipeline
 * leaves unchanged, and hence running the pipeline twice is the same as once.
 */
module Pipeline {
  import opened Wrappers
  import opened Weighted
  import opened Classification
  import opened Levels
  import opened Store

  /** `a` and `b` hold the same rows under every key whose first component is not `owner`. */
  ghost predicate SameOutside<V>(a: map<Key, V>, b: map<Key, V>, owner: int) {
    forall k: Key :: k.0 != owner ==> (k in a <==> k in b) && (k in a ==> a[k] == b[k])
  }

  // ---------------------------------------------------------------------------
  // Level 1 over a list of sub-CPMKs
  // ---------------------------------------------------------------------------

  function Level1Pass(db: Db, t: Tables, e: int, ids: seq<int>): Tables
    decreases ids
  {
    if ids == [] then t
    else Level1Pass(db, Level1Step(t, e, ids[0], InstrumentRows(db, e, ids[0])), e, ids[1..])
  }

  /** The stored sub-CPMK value of the enrollment is what level 1 computes from the instrument scores. */
  predicate Settled1(db: Db, t: Tables, e: int, s: int) {
    var rows := InstrumentRows(db, e, s);
    match WeightedAverage(InstrumentPairs(rows))
    case None => true
    case Some(v) => (e, s) in t.nilaiSubcpmk && t.nilaiSubcpmk[(e, s)] == SubCpmkRecordOf(v, |rows|)
  }

  /** Settled means exactly that one more level-1 step changes nothing. */
  lemma Settled1Iff(db: Db, t: Tables, e: int, s: int)
    ensures Settled1(db, t, e, s) <==> Level1Step(t, e, s, InstrumentRows(db, e, s)) == t
  {
    var t' := Level1Step(t, e, s, InstrumentRows(db, e, s));
    if t' == t && WeightedAverage(InstrumentPairs(InstrumentRows(db, e, s))).Some? {
      assert (e, s) in t'.nilaiSubcpmk;
    }
  }

  lemma Level1StepKeepsSettled(db: Db, t: Tables, e: int, s: int, s0: int)
    ensures Settled1(db, Level1Step(t, e, s, InstrumentRows(db, e, s)), e, s)
    ensures Settled1(db, t, e, s0) ==> Settled1(db, Level1Step(t, e, s, InstrumentRows(db, e, s)), e, s0)
  {
    Level1StepEffect(t, e, s, InstrumentRows(db, e, s));
    if s == s0 && Settled1(db, t, e, s0) {
      Settled1Iff(db, t, e, s);
    }
  }

  /**
   * After a level-1 pass every sub-CPMK of the list is settled, and so is
   * every sub-CPMK that was settled before; only the enrollment's rows of
   * `nilai_subcpmk` change.
   */
  lemma {:induction false} Level1PassSettles(db: Db, t: Tables, e: int, ids: seq<int>)
    ensures var t' := Level1Pass(db, t, e, ids);
            && (forall s :: s in ids || Settled1(db, t, e, s) ==> Settled1(db, t', e, s))
            && t'.nilaiCpmk == t.nilaiCpmk && t'.capaianCplPerMk == t.capaianCplPerMk
            && t'.capaianCplMahasiswa == t.capaianCplMahasiswa
            && SameOutside(t'.nilaiSubcpmk, t.nilaiSubcpmk, e)
    decreases ids
  {
    if ids != [] {
      var t1 := Level1Step(t, e, ids[0], InstrumentRows(db, e, ids[0]));
      Level1StepEffect(t, e, ids[0], InstrumentRows(db, e, ids[0]));
      Level1PassSettles(db, t1, e, ids[1..]);
      forall s | s in ids || Settled1(db, t, e, s)
        ensures s in ids[1..] || Settled1(db, t1, e, s)
      {
        Level1StepKeepsSettled(db, t, e, ids[0], s);
      }
    }
  }

  /** A pass over settled sub-CPMKs changes nothing. */
  lemma {:induction false} Level1PassOfSettled(db: Db, t: Tables, e: int, ids: seq<int>)
    requires forall s :: s in ids ==> Settled1(db, t, e, s)
    ensures Level1Pass(db, t, e, ids) == t
  {
    if ids != [] {
      Settled1Iff(db, t, e, ids[0]);
      Level1PassOfSettled(db, t, e, ids[1..]);
    }
  }

  // ---------------------------------------------------------------------------
  // Level 2 over a list of CPMKs
  // ---------------------------------------------------------------------------

  function Level2Pass(db: Db, t: Tables, e: int, ids: seq<int>): (Tables, Outcome<EngineError>)
    decreases ids
  {
    if ids == [] then (t, Pass)
    else
      var (t1, r) := Level2Step(t, e, ids[0], SubCpmkRows(db.subCpmk, t.nilaiSubcpmk, e, ids[0]));
      if r.Err? then (t1, Fail(r.error)) else Level2Pass(db, t1, e, ids[1..])
  }

  /**
   * The stored CPMK value of the enrollment is what level 2 computes from the
   * stored sub-CPMK values, and computing it would not raise.
   */
  predicate Settled2(db: Db, t: Tables, e: int, c: int) {
    var rows := SubCpmkRows(db.subCpmk, t.nilaiSubcpmk, e, c);
    |rows| == 0 ||
    match WeightedAverage(CpmkPairs(rows))
    case None => false
    case Some(v) => (e, c) in t.nilaiCpmk && t.nilaiCpmk[(e, c)] == CpmkRecordOf(v)
  }

  /** Settled means exactly that one more level-2 step succeeds and changes nothing. */
  lemma Settled2Iff(db: Db, t: Tables, e: int, c: int)
    ensures Settled2(db, t, e, c) <==>
            var (t', r) := Level2Step(t, e, c, SubCpmkRows(db.subCpmk, t.nilaiSubcpmk, e, c)); t' == t && r.Ok?
  {
    var rows := SubCpmkRows(db.subCpmk, t.nilaiSubcpmk, e, c);
    var (t', r) := Level2Step(t, e, c, rows);
    if t' == t && r.Ok? && |rows| > 0 {
      assert (e, c) in t'.nilaiCpmk;
    }
  }

  lemma Level2StepKeepsSettled(db: Db, t: Tables, e: int, c: int, c0: int)
    ensures var (t1, r) := Level2Step(t, e, c, SubCpmkRows(db.subCpmk, t.nilaiSubcpmk, e, c));
            && (r.Ok? ==> Settled2(db, t1, e, c))
            && (Settled2(db, t, e, c0) ==> Settled2(db, t1, e, c0))
  {
    Level2StepEffect(t, e, c, SubCpmkRows(db.subCpmk, t.nilaiSubcpmk, e, c));
    if c == c0 && Settled2(db, t, e, c0) {
      Settled2Iff(db, t, e, c);
    }
  }

  /**
   * A level-2 pass that does not raise settles every CPMK of the list and
   * keeps the settled ones; either way it writes only the enrollment's rows
   * of `nilai_cpmk`.
   */
  lemma {:induction false} Level2PassSettles(db: Db, t: Tables, e: int, ids: seq<int>)
    ensures var (t', o) := Level2Pass(db, t, e, ids);
            && (o.Pass? ==> forall c :: c in ids || Settled2(db, t, e, c) ==> Settled2(db, t', e, c))
            && t'.nilaiSubcpmk == t.nilaiSubcpmk && t'.capaianCplPerMk == t.capaianCplPerMk
            && t'.capaianCplMahasiswa == t.capaianCplMahasiswa
            && SameOutside(t'.nilaiCpmk, t.nilaiCpmk, e)
    decreases ids
  {
    if ids != [] {
      var rows := SubCpmkRows(db.subCpmk, t.nilaiSubcpmk, e, ids[0]);
      var (t1, r) := Level2Step(t, e, ids[0], rows);
      Level2StepEffect(t, e, ids[0], rows);
      if r.Ok? {
        Level2PassSettles(db, t1, e, ids[1..]);
        forall c | c in ids || Settled2(db, t, e, c)
          ensures c in ids[1..] || Settled2(db, t1, e, c)
        {
          Level2StepKeepsSettled(db, t, e, ids[0], c);
        }
      }
    }
  }

  /** A pass over settled CPMKs succeeds and changes nothing. */
  lemma {:induction false} Level2PassOfSettled(db: Db, t: Tables, e: int, ids: seq<int>)
    requires forall c :: c in ids ==> Settled2(db, t, e, c)
    ensures Level2Pass(db, t, e, ids) == (t, Pass)
  {
    if ids != [] {
      Settled2Iff(db, t, e, ids[0]);
      Level2PassOfSettled(db, t, e, ids[1..]);
    }
  }

  // ---------------------------------------------------------------------------
  // Level 3 over a list of CPLs of one course
  // ---------------------------------------------------------------------------

  function Level3At(db: Db, t: Tables, e: int, mk: int, p: int): (Tables, Result<Option<real>, EngineError>) {
    Level3Step(t, e, p, mk, CpmkRows(db, t.nilaiCpmk, e, p, mk), StageMappingOf(db.cplMk, p, mk),
               EnrollmentInfoOf(db, e), CourseSks(db.mataKuliah, mk))
  }

  function Level3Pass(db: Db, t: Tables, e: int, mk: int, ids: seq<int>): (Tables, Outcome<EngineError>)
    decreases ids
  {
    if ids == [] then (t, Pass)
    else
      var (t1, r) := Level3At(db, t, e, mk, ids[0]);
      if r.Err? then (t1, Fail(r.error)) else Level3Pass(db, t1, e, mk, ids[1..])
  }

  /**
   * The stored contribution of the enrollment to the CPL holds the value level 3
   * computes from the stored CPMK values and the course's stage for the CPL.
   */
  predicate Settled3(db: Db, t: Tables, e: int, mk: int, p: int) {
    match WeightedAverage(CplPairs(CpmkRows(db, t.nilaiCpmk, e, p, mk)))
    case None => true
    case Some(v) =>
      && EnrollmentInfoOf(db, e).Some? && CourseSks(db.mataKuliah, mk).Some?
      && (e, p) in t.capaianCplPerMk
      && t.capaianCplPerMk[(e, p)].nilaiKontribusi == v
      && t.capaianCplPerMk[(e, p)].statusDalamMk == StageOf(StageMappingOf(db.cplMk, p, mk)).status
  }

  lemma Level3AtEffect(db: Db, t: Tables, e: int, mk: int, p: int)
    ensures var (t', r) := Level3At(db, t, e, mk, p);
            && t'.nilaiSubcpmk == t.nilaiSubcpmk && t'.nilaiCpmk == t.nilaiCpmk
            && t'.capaianCplMahasiswa == t.capaianCplMahasiswa
            && (forall k :: k != (e, p) ==>
                  (k in t'.capaianCplPerMk <==> k in t.capaianCplPerMk) &&
                  (k in t.capaianCplPerMk ==> t'.capaianCplPerMk[k] == t.capaianCplPerMk[k]))
            && (r.Ok? ==> Settled3(db, t', e, mk, p))
  {
    Level3StepEffect(t, e, p, mk, CpmkRows(db, t.nilaiCpmk, e, p, mk), StageMappingOf(db.cplMk, p, mk),
                     EnrollmentInfoOf(db, e), CourseSks(db.mataKuliah, mk));
  }

  /** Settled means exactly that one more level-3 step succeeds and changes nothing. */
  lemma Settled3Iff(db: Db, t: Tables, e: int, mk: int, p: int)
    ensures Settled3(db, t, e, mk, p) <==> var (t', r) := Level3At(db, t, e, mk, p); t' == t && r.Ok?
  {
    var rows := CpmkRows(db, t.nilaiCpmk, e, p, mk);
    var (t', r) := Level3At(db, t, e, mk, p);
    Level3StepEffect(t, e, p, mk, rows, StageMappingOf(db.cplMk, p, mk), EnrollmentInfoOf(db, e), CourseSks(db.mataKuliah, mk));
    if Settled3(db, t, e, mk, p) && WeightedAverage(CplPairs(rows)).Some? {
      var m := t.capaianCplPerMk;
      assert t'.capaianCplPerMk[(e, p)] == m[(e, p)];
      assert t'.capaianCplPerMk == m;
    }
  }

  lemma Level3AtKeepsSettled(db: Db, t: Tables, e: int, mk: int, p: int, p0: int)
    requires Settled3(db, t, e, mk, p0)
    ensures Settled3(db, Level3At(db, t, e, mk, p).0, e, mk, p0)
  {
    Level3AtEffect(db, t, e, mk, p);
    if p == p0 {
      Settled3Iff(db, t, e, mk, p);
    }
  }

  /**
   * A level-3 pass that does not raise settles every CPL of the list and keeps
   * the settled ones; either way it writes only the enrollment's rows of
   * `capaian_cpl_per_mk`.
   */
  lemma {:induction false} Level3PassSettles(db: Db, t: Tables, e: int, mk: int, ids: seq<int>)
    ensures var (t', o) := Level3Pass(db, t, e, mk, ids);
            && (o.Pass? ==> forall p :: p in ids || Settled3(db, t, e, mk, p) ==> Settled3(db, t', e, mk, p))
            && t'.nilaiSubcpmk == t.nilaiSubcpmk && t'.nilaiCpmk == t.nilaiCpmk
            && t'.capaianCplMahasiswa == t.capaianCplMahasiswa
            && SameOutside(t'.capaianCplPerMk, t.capaianCplPerMk, e)
    decreases ids
  {
    if ids != [] {
      var (t1, r) := Level3At(db, t, e, mk, ids[0]);
      Level3AtEffect(db, t, e, mk, ids[0]);
      if r.Ok? {
        Level3PassSettles(db, t1, e, mk, ids[1..]);
        forall p | p in ids || Settled3(db, t, e, mk, p)
          ensures p in ids[1..] || Settled3(db, t1, e, mk, p)
        {
          if p != ids[0] && Settled3(db, t, e, mk, p) {
            Level3AtKeepsSettled(db, t, e, mk, ids[0], p);
          }
        }
      }
    }
  }

  /** A pass over settled CPLs succeeds and changes nothing. */
  lemma {:induction false} Level3PassOfSettled(db: Db, t: Tables, e: int, mk: int, ids: seq<int>)
    requires forall p :: p in ids ==> Settled3(db, t, e, mk, p)
    ensures Level3Pass(db, t, e, mk, ids) == (t, Pass)
  {
    if ids != [] {
      Settled3Iff(db, t, e, mk, ids[0]);
      Level3PassOfSettled(db, t, e, mk, ids[1..]);
    }
  }

  // ---------------------------------------------------------------------------
  // Level 4 (default method) over a list of CPLs of one student
  // ---------------------------------------------------------------------------

  function Level4At(db: Db, t: Tables, m: int, p: int): (Tables, Result<Option<real>, EngineError>) {
    Level4Step(t, m, p, DefaultMethod, CplPerMkRows(db.enrollment, t.capaianCplPerMk, m, p),
               Threshold(db.cpl, p), LatestSemester(db, m))
  }

  function Level4Pass(db: Db, t: Tables, m: int, ids: seq<int>): (Tables, Outcome<EngineError>)
    decreases ids
  {
    if ids == [] then (t, Pass)
    else
      var (t1, r) := Level4At(db, t, m, ids[0]);
      if r.Err? then (t1, Fail(r.error)) else Level4Pass(db, t1, m, ids[1..])
  }

  /**
   * The stored aggregate of the student for the CPL is what level 4 computes,
   * by `weighted_by_status`, from the stored per-course contributions, and
   * computing it would not raise.
   */
  predicate Settled4(db: Db, t: Tables, m: int, p: int) {
    var rows := CplPerMkRows(db.enrollment, t.capaianCplPerMk, m, p);
    match AggregatePercent(DefaultMethod, rows)
    case Err(_) => false
    case Ok(None) => true
    case Ok(Some(x)) =>
      && Threshold(db.cpl, p).Some?
      && (m, p) in t.capaianCplMahasiswa
      && t.capaianCplMahasiswa[(m, p)]
         == CplAggregateRecord(FourPointScale(x), |rows|, TotalSks(rows), CplStatusOf(Stages(rows)),
                               FourPointScale(x) >= Threshold(db.cpl, p).value, LatestSemester(db, m))
  }

  /** Settled means exactly that one more level-4 step succeeds and changes nothing. */
  lemma Settled4Iff(db: Db, t: Tables, m: int, p: int)
    ensures Settled4(db, t, m, p) <==> var (t', r) := Level4At(db, t, m, p); t' == t && r.Ok?
  {
    var (t', r) := Level4At(db, t, m, p);
    var rows := CplPerMkRows(db.enrollment, t.capaianCplPerMk, m, p);
    if t' == t && r.Ok? && AggregatePercent(DefaultMethod, rows).Ok? && AggregatePercent(DefaultMethod, rows).value.Some? {
      assert (m, p) in t'.capaianCplMahasiswa;
    }
  }

  lemma Level4AtKeepsSettled(db: Db, t: Tables, m: int, p: int, p0: int)
    ensures var (t1, r) := Level4At(db, t, m, p);
            && (r.Ok? ==> Settled4(db, t1, m, p))
            && (Settled4(db, t, m, p0) ==> Settled4(db, t1, m, p0))
  {
    Level4StepEffect(t, m, p, DefaultMethod, CplPerMkRows(db.enrollment, t.capaianCplPerMk, m, p),
                     Threshold(db.cpl, p), LatestSemester(db, m));
    if p == p0 && Settled4(db, t, m, p0) {
      Settled4Iff(db, t, m, p);
    }
  }

  /**
   * A level-4 pass that does not raise settles every CPL of the list and keeps
   * the settled ones; either way it writes only the student's rows of
   * `capaian_cpl_mahasiswa`.
   */
  lemma {:induction false} Level4PassSettles(db: Db, t: Tables, m: int, ids: seq<int>)
    decreases ids
    ensures var (t', o) := Level4Pass(db, t, m, ids);
            && (o.Pass? ==> forall p :: p in ids || Settled4(db, t, m, p) ==> Settled4(db, t', m, p))
            && t'.nilaiSubcpmk == t.nilaiSubcpmk && t'.nilaiCpmk == t.nilaiCpmk
            && t'.capaianCplPerMk == t.capaianCplPerMk
            && SameOutside(t'.capaianCplMahasiswa, t.capaianCplMahasiswa, m)
  {
    if ids != [] {
      var (t1, r) := Level4At(db, t, m, ids[0]);
      Level4StepEffect(t, m, ids[0], DefaultMethod, CplPerMkRows(db.enrollment, t.capaianCplPerMk, m, ids[0]),
                       Threshold(db.cpl, ids[0]), LatestSemester(db, m));
      if r.Ok? {
        Level4PassSettles(db, t1, m, ids[1..]);
        forall p | p in ids || Settled4(db, t, m, p)
          ensures p in ids[1..] || Settled4(db, t1, m, p)
        {
          Level4AtKeepsSettled(db, t, m, ids[0], p);
        }
      }
    }
  }

  /** A pass over settled CPLs succeeds and changes nothing. */
  lemma {:induction false} Level4PassOfSettled(db: Db, t: Tables, m: int, ids: seq<int>)
    requires forall p :: p in ids ==> Settled4(db, t, m, p)
    ensures Level4Pass(db, t, m, ids) == (t, Pass)
  {
    if ids != [] {
      Settled4Iff(db, t, m, ids[0]);
      Level4PassOfSettled(db, t, m, ids[1..]);
    }
  }

  // ---------------------------------------------------------------------------
  // recalculate_all_for_enrollment
  // ---------------------------------------------------------------------------

  /**
   * The whole pipeline for one enrollment: an unknown enrollment raises before
   * anything is written; otherwise levels 1 to 4 run in that order and the
   * first exception stops the run.
   */
  function RecalculateEnrollment(db: Db, t: Tables, enrollmentId: int): (Tables, Outcome<EngineError>) {
    match FindEnrollment(db.enrollment, enrollmentId)
    case None => (t, Fail(EnrollmentNotFound(enrollmentId)))
    case Some(en) =>
      var t1 := Level1Pass(db, t, enrollmentId, SubCpmkIdsOfCourse(db, en.mataKuliahId));
      var (t2, o2) := Level2Pass(db, t1, enrollmentId, CpmkIdsOfCourse(db.cpmk, en.mataKuliahId));
      if o2.Fail? then (t2, o2)
      else
        var (t3, o3) := Level3Pass(db, t2, enrollmentId, en.mataKuliahId, CplIdsOfCourse(db.cplMk, en.mataKuliahId));
        if o3.Fail? then (t3, o3)
        else Level4Pass(db, t3, en.mahasiswaId, ActiveCplIds(db.cpl))
  }

  /**
   * The tables are consistent for the enrollment: it exists, and every value
   * the pipeline would store for it (and, at level 4, for its student) is the
   * one already stored.
   */
  predicate Consistent(db: Db, t: Tables, enrollmentId: int) {
    match FindEnrollment(db.enrollment, enrollmentId)
    case None => false
    case Some(en) =>
      && CourseSettled(db, t, enrollmentId, en.mataKuliahId)
      && (forall p :: p in ActiveCplIds(db.cpl) ==> Settled4(db, t, en.mahasiswaId, p))
  }

  /** Levels 1 to 3 are settled for the enrollment in the course. */
  predicate CourseSettled(db: Db, t: Tables, e: int, mk: int) {
    && (forall s :: s in SubCpmkIdsOfCourse(db, mk) ==> Settled1(db, t, e, s))
    && (forall c :: c in CpmkIdsOfCourse(db.cpmk, mk) ==> Settled2(db, t, e, c))
    && (forall p :: p in CplIdsOfCourse(db.cplMk, mk) ==> Settled3(db, t, e, mk, p))
  }

  /**
   * An unknown enrollment raises and writes nothing.  Otherwise the run writes
   * only the enrollment's rows of the first three tables and its student's rows
   * of `capaian_cpl_mahasiswa`, and when it does not raise it leaves the tables
   * consistent for the enrollment.
   */
  lemma RecalculateEnrollmentEffect(db: Db, t: Tables, enrollmentId: int)
    ensures FindEnrollment(db.enrollment, enrollmentId).None? ==>
              RecalculateEnrollment(db, t, enrollmentId) == (t, Fail(EnrollmentNotFound(enrollmentId)))
    ensures FindEnrollment(db.enrollment, enrollmentId).Some? ==>
              var (t', o) := RecalculateEnrollment(db, t, enrollmentId);
              && SameOutside(t'.nilaiSubcpmk, t.nilaiSubcpmk, enrollmentId)
              && SameOutside(t'.nilaiCpmk, t.nilaiCpmk, enrollmentId)
              && SameOutside(t'.capaianCplPerMk, t.capaianCplPerMk, enrollmentId)
              && SameOutside(t'.capaianCplMahasiswa, t.capaianCplMahasiswa,
                             FindEnrollment(db.enrollment, enrollmentId).value.mahasiswaId)
              && (o.Pass? ==> Consistent(db, t', enrollmentId))
  {
    match FindEnrollment(db.enrollment, enrollmentId)
    case None =>
    case Some(en) =>
      var e, mk := enrollmentId, en.mataKuliahId;
      var t1 := Level1Pass(db, t, e, SubCpmkIdsOfCourse(db, mk));
      Level1PassSettles(db, t, e, SubCpmkIdsOfCourse(db, mk));
      var (t2, o2) := Level2Pass(db, t1, e, CpmkIdsOfCourse(db.cpmk, mk));
      Level2PassSettles(db, t1, e, CpmkIdsOfCourse(db.cpmk, mk));
      if o2.Pass? {
        var (t3, o3) := Level3Pass(db, t2, e, mk, CplIdsOfCourse(db.cplMk, mk));
        Level3PassSettles(db, t2, e, mk, CplIdsOfCourse(db.cplMk, mk));
        if o3.Pass? {
          var t' := Level4Pass(db, t3, en.mahasiswaId, ActiveCplIds(db.cpl)).0;
          Level4PassSettles(db, t3, en.mahasiswaId, ActiveCplIds(db.cpl));
          forall s | s in SubCpmkIdsOfCourse(db, mk) ensures Settled1(db, t', e, s) {
            Settled1Frame(db, t1, t', e, s);
          }
          forall c | c in CpmkIdsOfCourse(db.cpmk, mk) ensures Settled2(db, t', e, c) {
            Settled2Frame(db, t2, t', e, c);
          }
          forall p | p in CplIdsOfCourse(db.cplMk, mk) ensures Settled3(db, t', e, mk, p) {
            Settled3Frame(db, t3, t', e, mk, p);
          }
        }
      }
  }

  /** `a` and `b` hold the same rows under every key whose first component is `owner`. */
  ghost predicate SameAt<V>(a: map<Key, V>, b: map<Key, V>, owner: int) {
    forall k: Key :: k.0 == owner ==> (k in a <==> k in b) && (k in a ==> a[k] == b[k])
  }

  /** The level-2 query reads only the enrollment's own `nilai_subcpmk` rows. */
  lemma {:induction false} SubCpmkRowsLocal(subs: seq<SubCpmk>, a: map<Key, SubCpmkRecord>, b: map<Key, SubCpmkRecord>, e: int, c: int)
    requires SameAt(a, b, e)
    ensures SubCpmkRows(subs, a, e, c) == SubCpmkRows(subs, b, e, c)
  {
    if subs != [] {
      assert (e, subs[0].id).0 == e;
      SubCpmkRowsLocal(subs[1..], a, b, e, c);
    }
  }

  /** The level-3 query reads only the enrollment's own `nilai_cpmk` rows. */
  lemma {:induction false} MappedCpmkRowsLocal(mapping: seq<CpmkCpl>, cpmks: seq<Cpmk>, a: map<Key, CpmkRecord>,
                                               b: map<Key, CpmkRecord>, e: int, p: int, mk: int)
    requires SameAt(a, b, e)
    ensures MappedCpmkRows(mapping, cpmks, a, e, p, mk) == MappedCpmkRows(mapping, cpmks, b, e, p, mk)
  {
    if mapping != [] {
      assert (e, mapping[0].cpmkId).0 == e;
      MappedCpmkRowsLocal(mapping[1..], cpmks, a, b, e, p, mk);
    }
  }

  /** Settled1 reads only the enrollment's own `nilai_subcpmk` rows. */
  lemma Settled1Frame(db: Db, t: Tables, u: Tables, e: int, s: int)
    requires SameAt(t.nilaiSubcpmk, u.nilaiSubcpmk, e)
    ensures Settled1(db, t, e, s) ==> Settled1(db, u, e, s)
  {
    assert (e, s).0 == e;
  }

  /** Settled2 reads only the enrollment's own `nilai_subcpmk` and `nilai_cpmk` rows. */
  lemma Settled2Frame(db: Db, t: Tables, u: Tables, e: int, c: int)
    requires SameAt(t.nilaiSubcpmk, u.nilaiSubcpmk, e) && SameAt(t.nilaiCpmk, u.nilaiCpmk, e)
    ensures Settled2(db, t, e, c) ==> Settled2(db, u, e, c)
  {
    SubCpmkRowsLocal(db.subCpmk, t.nilaiSubcpmk, u.nilaiSubcpmk, e, c);
    assert (e, c).0 == e;
  }

  /** Settled3 reads only the enrollment's own `nilai_cpmk` and `capaian_cpl_per_mk` rows. */
  lemma Settled3Frame(db: Db, t: Tables, u: Tables, e: int, mk: int, p: int)
    requires SameAt(t.nilaiCpmk, u.nilaiCpmk, e) && SameAt(t.capaianCplPerMk, u.capaianCplPerMk, e)
    ensures Settled3(db, t, e, mk, p) ==> Settled3(db, u, e, mk, p)
  {
    MappedCpmkRowsLocal(db.cpmkCpl, db.cpmk, t.nilaiCpmk, u.nilaiCpmk, e, p, mk);
    assert (e, p).0 == e;
  }

  /** Levels 1 to 3 of an enrollment read only the enrollment's own rows of the first three tables. */
  lemma CourseSettledFrame(db: Db, t: Tables, u: Tables, e: int, mk: int)
    requires SameAt(t.nilaiSubcpmk, u.nilaiSubcpmk, e) && SameAt(t.nilaiCpmk, u.nilaiCpmk, e)
    requires SameAt(t.capaianCplPerMk, u.capaianCplPerMk, e)
    ensures CourseSettled(db, t, e, mk) ==> CourseSettled(db, u, e, mk)
  {
    if CourseSettled(db, t, e, mk) {
      forall s | s in SubCpmkIdsOfCourse(db, mk) ensures Settled1(db, u, e, s) {
        Settled1Frame(db, t, u, e, s);
      }
      forall c | c in CpmkIdsOfCourse(db.cpmk, mk) ensures Settled2(db, u, e, c) {
        Settled2Frame(db, t, u, e, c);
      }
      forall p | p in CplIdsOfCourse(db.cplMk, mk) ensures Settled3(db, u, e, mk, p) {
        Settled3Frame(db, t, u, e, mk, p);
      }
    }
  }

  /** A state is consistent for the enrollment exactly when the pipeline succeeds on it without changing it. */
  lemma ConsistentIffFixpoint(db: Db, t: Tables, enrollmentId: int)
    ensures Consistent(db, t, enrollmentId) <==> RecalculateEnrollment(db, t, enrollmentId) == (t, Pass)
  {
    if Consistent(db, t, enrollmentId) {
      var en := FindEnrollment(db.enrollment, enrollmentId).value;
      Level1PassOfSettled(db, t, enrollmentId, SubCpmkIdsOfCourse(db, en.mataKuliahId));
      Level2PassOfSettled(db, t, enrollmentId, CpmkIdsOfCourse(db.cpmk, en.mataKuliahId));
      Level3PassOfSettled(db, t, enrollmentId, en.mataKuliahId, CplIdsOfCourse(db.cplMk, en.mataKuliahId));
      Level4PassOfSettled(db, t, en.mahasiswaId, ActiveCplIds(db.cpl));
    }
    RecalculateEnrollmentEffect(db, t, enrollmentId);
  }

  /** Recalculating an enrollment a second time changes nothing and does not raise. */
  lemma RecalculateEnrollmentIdempotent(db: Db, t: Tables, enrollmentId: int)
    requires RecalculateEnrollment(db, t, enrollmentId).1.Pass?
    ensures var t' := RecalculateEnrollment(db, t, enrollmentId).0;
            RecalculateEnrollment(db, t', enrollmentId) == (t', Pass)
  {
    var t' := RecalculateEnrollment(db, t, enrollmentId).0;
    RecalculateEnrollmentEffect(db, t, enrollmentId);
    ConsistentIffFixpoint(db, t', enrollmentId);
  }

  // ---------------------------------------------------------------------------
  // recalculate_all_for_student
  // ---------------------------------------------------------------------------

  /** The pipeline for each enrollment in turn; the first exception stops the run. */
  function RecalculateEnrollments(db: Db, t: Tables, ids: seq<int>): (Tables, Outcome<EngineError>)
    decreases ids
  {
    if ids == [] then (t, Pass)
    else
      var (t1, o) := RecalculateEnrollment(db, t, ids[0]);
      if o.Fail? then (t1, o) else RecalculateEnrollments(db, t1, ids[1..])
  }

  /** The pipeline for each of the student's 'lulus' and 'aktif' enrollments. */
  function RecalculateStudent(db: Db, t: Tables, mahasiswaId: int): (Tables, Outcome<EngineError>) {
    RecalculateEnrollments(db, t, EnrollmentIdsOfStudent(db.enrollment, mahasiswaId))
  }

  /** `a` and `b` hold the same rows under every key whose first component is not among `owners`. */
  ghost predicate SameOutsideAll<V>(a: map<Key, V>, b: map<Key, V>, owners: seq<int>) {
    forall k: Key :: k.0 !in owners ==> (k in a <==> k in b) && (k in a ==> a[k] == b[k])
  }

  /** With unique ids, looking an enrollment up by its id finds that enrollment. */
  lemma {:induction false} FindEnrollmentUnique(es: seq<Enrollment>, e: Enrollment)
    requires forall i, j :: 0 <= i < j < |es| ==> es[i].id != es[j].id
    requires e in es
    ensures FindEnrollment(es, e.id) == Some(e)
  {
    if es[0] != e {
      var k :| 0 <= k < |es| && es[k] == e;
      assert es[0].id != es[k].id;
      assert e in es[1..];
      FindEnrollmentUnique(es[1..], e);
    }
  }

  /** A frame for the first listed owner is a frame for the whole list. */
  lemma FrameOfFirst<V>(b: map<Key, V>, a: map<Key, V>, ids: seq<int>)
    requires |ids| > 0 && SameOutside(b, a, ids[0])
    ensures SameOutsideAll(b, a, ids)
  {
    assert ids[0] in ids;
  }

  /** A frame for the first owner followed by a frame for the rest is a frame for the list. */
  lemma ExtendFrame<V>(c: map<Key, V>, b: map<Key, V>, a: map<Key, V>, ids: seq<int>)
    requires |ids| > 0 && SameOutside(b, a, ids[0]) && SameOutsideAll(c, b, ids[1..])
    ensures SameOutsideAll(c, a, ids)
  {
    assert ids[0] in ids;
    assert forall id :: id in ids[1..] ==> id in ids;
  }

  /** Frames for the same owner compose. */
  lemma ComposeFrame<V>(c: map<Key, V>, b: map<Key, V>, a: map<Key, V>, owner: int)
    requires SameOutside(b, a, owner) && SameOutside(c, b, owner)
    ensures SameOutside(c, a, owner)
  {
  }

  /** The runs write only rows of the listed enrollments and of their student. */
  lemma {:induction false} RecalculateEnrollmentsFrame(db: Db, t: Tables, ids: seq<int>, m: int)
    requires UniqueEnrollmentIds(db)
    requires forall id :: id in ids ==> exists e :: e in db.enrollment && e.id == id && e.mahasiswaId == m
    decreases ids
    ensures var t' := RecalculateEnrollments(db, t, ids).0;
            && SameOutsideAll(t'.nilaiSubcpmk, t.nilaiSubcpmk, ids)
            && SameOutsideAll(t'.nilaiCpmk, t.nilaiCpmk, ids)
            && SameOutsideAll(t'.capaianCplPerMk, t.capaianCplPerMk, ids)
            && SameOutside(t'.capaianCplMahasiswa, t.capaianCplMahasiswa, m)
  {
    if ids != [] {
      assert ids[0] in ids;
      var e :| e in db.enrollment && e.id == ids[0] && e.mahasiswaId == m;
      FindEnrollmentUnique(db.enrollment, e);
      RecalculateEnrollmentEffect(db, t, ids[0]);
      var (t1, o) := RecalculateEnrollment(db, t, ids[0]);
      if o.Pass? {
        assert forall id :: id in ids[1..] ==> id in ids;
        RecalculateEnrollmentsFrame(db, t1, ids[1..], m);
        var t' := RecalculateEnrollments(db, t1, ids[1..]).0;
        ExtendFrame(t'.nilaiSubcpmk, t1.nilaiSubcpmk, t.nilaiSubcpmk, ids);
        ExtendFrame(t'.nilaiCpmk, t1.nilaiCpmk, t.nilaiCpmk, ids);
        ExtendFrame(t'.capaianCplPerMk, t1.capaianCplPerMk, t.capaianCplPerMk, ids);
        ComposeFrame(t'.capaianCplMahasiswa, t1.capaianCplMahasiswa, t.capaianCplMahasiswa, m);
      } else {
        FrameOfFirst(t1.nilaiSubcpmk, t.nilaiSubcpmk, ids);
        FrameOfFirst(t1.nilaiCpmk, t.nilaiCpmk, ids);
        FrameOfFirst(t1.capaianCplPerMk, t.capaianCplPerMk, ids);
      }
    }
  }

  /** A run over several enrollments that does not raise ends with a successful run of the last one. */
  lemma {:induction false} RecalculateEnrollmentsEndsWithLast(db: Db, t: Tables, ids: seq<int>) returns (t0: Tables)
    requires |ids| > 0
    requires RecalculateEnrollments(db, t, ids).1.Pass?
    decreases ids
    ensures RecalculateEnrollment(db, t0, ids[|ids| - 1]) == RecalculateEnrollments(db, t, ids)
  {
    if |ids| == 1 {
      t0 := t;
    } else {
      t0 := RecalculateEnrollmentsEndsWithLast(db, RecalculateEnrollment(db, t, ids[0]).0, ids[1..]);
      assert ids[|ids| - 1] == ids[1..][|ids[1..]| - 1];
    }
  }

  /** A run over several enrollments that does not raise leaves the tables consistent for the last one. */
  lemma RecalculateEnrollmentsLastConsistent(db: Db, t: Tables, ids: seq<int>)
    requires |ids| > 0
    requires RecalculateEnrollments(db, t, ids).1.Pass?
    ensures Consistent(db, RecalculateEnrollments(db, t, ids).0, ids[|ids| - 1])
  {
    var t0 := RecalculateEnrollmentsEndsWithLast(db, t, ids);
    RecalculateEnrollmentEffect(db, t0, ids[|ids| - 1]);
  }

  /**
   * A run over several enrollments of one student that does not raise leaves
   * levels 1 to 3 settled for every one of them: a later run writes only its
   * own enrollment's rows of the first three tables, which the earlier
   * enrollments' levels 1 to 3 do not read.
   */
  lemma {:induction false} RecalculateEnrollmentsCoursesSettled(db: Db, t: Tables, ids: seq<int>, m: int)
    requires UniqueEnrollmentIds(db)
    requires forall id :: id in ids ==> exists e :: e in db.enrollment && e.id == id && e.mahasiswaId == m
    requires RecalculateEnrollments(db, t, ids).1.Pass?
    decreases ids
    ensures var t' := RecalculateEnrollments(db, t, ids).0;
            forall id :: id in ids ==>
              FindEnrollment(db.enrollment, id).Some? &&
              CourseSettled(db, t', id, FindEnrollment(db.enrollment, id).value.mataKuliahId)
  {
    if ids != [] {
      var e := ids[0];
      var (t1, o) := RecalculateEnrollment(db, t, e);
      RecalculateEnrollmentEffect(db, t, e);
      var mk := FindEnrollment(db.enrollment, e).value.mataKuliahId;
      assert CourseSettled(db, t1, e, mk);
      var rest := ids[1..];
      assert forall id :: id in rest ==> id in ids;
      var t' := RecalculateEnrollments(db, t1, rest).0;
      RecalculateEnrollmentsCoursesSettled(db, t1, rest, m);
      if e !in rest {
        RecalculateEnrollmentsFrame(db, t1, rest, m);
        CourseSettledFrame(db, t1, t', e, mk);
      }
      assert forall id :: id in ids ==> id == e || id in rest;
    }
  }

  /**
   * Recalculating a student writes only the rows of the student's 'lulus' and
   * 'aktif' enrollments and the student's own aggregates; a student without
   * such enrollments is left untouched; otherwise, when the run does not raise, the
   * student's aggregate of every active CPL is settled (one more level-4 pass
   * succeeds and changes nothing) and the tables are consistent for every one
   * of the enrollments.
   */
  lemma RecalculateStudentEffect(db: Db, t: Tables, mahasiswaId: int)
    requires UniqueEnrollmentIds(db)
    ensures var ids := EnrollmentIdsOfStudent(db.enrollment, mahasiswaId);
            var (t', o) := RecalculateStudent(db, t, mahasiswaId);
            && SameOutsideAll(t'.nilaiSubcpmk, t.nilaiSubcpmk, ids)
            && SameOutsideAll(t'.nilaiCpmk, t.nilaiCpmk, ids)
            && SameOutsideAll(t'.capaianCplPerMk, t.capaianCplPerMk, ids)
            && SameOutside(t'.capaianCplMahasiswa, t.capaianCplMahasiswa, mahasiswaId)
            && (|ids| == 0 ==> t' == t && o == Pass)
            && (|ids| > 0 && o.Pass? ==> Level4Pass(db, t', mahasiswaId, ActiveCplIds(db.cpl)) == (t', Pass))
            && (o.Pass? ==> forall id :: id in ids ==> Consistent(db, t', id))
  {
    var ids := EnrollmentIdsOfStudent(db.enrollment, mahasiswaId);
    var (t', o) := RecalculateStudent(db, t, mahasiswaId);
    RecalculateEnrollmentsFrame(db, t, ids, mahasiswaId);
    if o.Pass? && |ids| > 0 {
      RecalculateEnrollmentsLastConsistent(db, t, ids);
      var last := ids[|ids| - 1];
      assert last in ids;
      var e :| e in db.enrollment && e.id == last && e.mahasiswaId == mahasiswaId && Counts(e.status);
      FindEnrollmentUnique(db.enrollment, e);
      Level4PassOfSettled(db, t', mahasiswaId, ActiveCplIds(db.cpl));
      RecalculateEnrollmentsCoursesSettled(db, t, ids, mahasiswaId);
      forall id | id in ids ensures Consistent(db, t', id) {
        var en :| en in db.enrollment && en.id == id && en.mahasiswaId == mahasiswaId && Counts(en.status);
        FindEnrollmentUnique(db.enrollment, en);
      }
    }
  }
}
