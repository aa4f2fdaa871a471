/**
 * The data the engine reads but never writes, and the queries it runs.
 * Each query is a function of this snapshot and, where it joins a table the
 * engine writes, of that table's current contents.  A query's rows come in
 * the order of the snapshot's table, where SQL leaves the order open.  The
 * value one level step computes does not depend on that order under exact
 * arithmetic.  Which rows a pass writes does: when a step raises part-way
 * through a pass, the rows written before it depend on the order of the id
 * lists the pass iterates, and those queries have no ORDER BY.
 */
module Store {
  import opened Wrappers
  import opened Levels

  /** An `enrollment` row. */
  datatype Enrollment = Enrollment(id: int, mahasiswaId: int, mataKuliahId: int, status: string, semesterTahun: string)
  /** A `mata_kuliah` row: the course and its credits. */
  datatype MataKuliah = MataKuliah(id: int, sks: int)
  /** A `nilai_instrumen` row: an instrument score of an enrollment, possibly NULL. */
  datatype NilaiInstrumen = NilaiInstrumen(enrollmentId: int, instrumenId: int, nilaiAngka: Option<real>)
  /** An `instrumen_subcpmk_mapping` row. */
  datatype InstrumenSubcpmk = InstrumenSubcpmk(instrumenId: int, subCpmkId: int, bobotSoalPersen: real)
  /** A `sub_cpmk` row. */
  datatype SubCpmk = SubCpmk(id: int, cpmkId: int, bobotPersen: real)
  /** A `cpmk` row. */
  datatype Cpmk = Cpmk(id: int, mataKuliahId: int)
  /** A `cpmk_cpl_mapping` row. */
  datatype CpmkCpl = CpmkCpl(cpmkId: int, cplId: int, kontribusiPersen: real)
  /** A `cpl_mk_mapping` row: the stage of a course for a CPL. */
  datatype CplMk = CplMk(cplId: int, mataKuliahId: int, status: string, bobotStatus: real)
  /** A `cpl` row. */
  datatype Cpl = Cpl(id: int, nilaiMinimumKelulusan: real, statusAktif: bool)

  /**
   * The read-only tables.  `latestSemester` stands for the query "semester of
   * the student's most recent enrollment", whose ordering column is not modelled.
   */
  datatype Db = Db(
    enrollment: seq<Enrollment>,
    mataKuliah: seq<MataKuliah>,
    nilaiInstrumen: seq<NilaiInstrumen>,
    instrumenSubcpmk: seq<InstrumenSubcpmk>,
    subCpmk: seq<SubCpmk>,
    cpmk: seq<Cpmk>,
    cpmkCpl: seq<CpmkCpl>,
    cplMk: seq<CplMk>,
    cpl: seq<Cpl>,
    latestSemester: map<int, string>)

  /** The enrollment statuses whose courses count: 'lulus' (passed) and 'aktif' (active). */
  predicate Counts(status: string) {
    status == "lulus" || status == "aktif"
  }

  /** Enrollment ids are a primary key. */
  predicate UniqueEnrollmentIds(db: Db) {
    forall i, j :: 0 <= i < j < |db.enrollment| ==> db.enrollment[i].id != db.enrollment[j].id
  }

  /** The values of `xs` without repetitions, each at its first occurrence (`SELECT DISTINCT`). */
  function Distinct(xs: seq<int>): (r: seq<int>)
    ensures forall x :: x in r <==> x in xs
    ensures forall i, j :: 0 <= i < j < |r| ==> r[i] != r[j]
  {
    if xs == [] then []
    else
      var init := Distinct(xs[..|xs| - 1]);
      assert forall x :: x in xs <==> x in xs[..|xs| - 1] || x == xs[|xs| - 1];
      if xs[|xs| - 1] in init then init else init + [xs[|xs| - 1]]
  }

  // ---------------------------------------------------------------------------
  // Single-row lookups (`execute_one`: the first matching row, or None)
  // ---------------------------------------------------------------------------

  /** The `enrollment` row with the id: the first one, or None. */
  function FindEnrollment(es: seq<Enrollment>, id: int): (r: Option<Enrollment>)
    ensures r.Some? ==> r.value in es && r.value.id == id
    ensures r.None? <==> forall e :: e in es ==> e.id != id
  {
    if es == [] then None
    else if es[0].id == id then Some(es[0])
    else FindEnrollment(es[1..], id)
  }

  /** The credits (`sks`) of the `mata_kuliah` row with the id, or None. */
  function CourseSks(mks: seq<MataKuliah>, id: int): (r: Option<int>)
    ensures r.Some? ==> MataKuliah(id, r.value) in mks
    ensures r.None? <==> forall mk :: mk in mks ==> mk.id != id
  {
    if mks == [] then None
    else if mks[0].id == id then Some(mks[0].sks)
    else CourseSks(mks[1..], id)
  }

  /**
   * The student and semester of an enrollment joined with its course: those
   * of the first enrollment with the id whose course exists, or None.
   */
  function EnrollmentInfoOf(db: Db, id: int): (r: Option<EnrollmentInfo>)
    ensures r.Some? ==> exists e :: e in db.enrollment && e.id == id && CourseSks(db.mataKuliah, e.mataKuliahId).Some?
                                  && r.value == EnrollmentInfo(e.mahasiswaId, e.semesterTahun)
    ensures r.None? <==> forall e :: e in db.enrollment && e.id == id ==> CourseSks(db.mataKuliah, e.mataKuliahId).None?
  {
    JoinedEnrollment(db.enrollment, db.mataKuliah, id)
  }

  function JoinedEnrollment(es: seq<Enrollment>, mks: seq<MataKuliah>, id: int): (r: Option<EnrollmentInfo>)
    ensures r.Some? ==> exists e :: e in es && e.id == id && CourseSks(mks, e.mataKuliahId).Some?
                                  && r.value == EnrollmentInfo(e.mahasiswaId, e.semesterTahun)
    ensures r.None? <==> forall e :: e in es && e.id == id ==> CourseSks(mks, e.mataKuliahId).None?
  {
    if es == [] then None
    else if es[0].id == id && CourseSks(mks, es[0].mataKuliahId).Some? then
      Some(EnrollmentInfo(es[0].mahasiswaId, es[0].semesterTahun))
    else
      assert forall e :: e in es <==> e == es[0] || e in es[1..];
      JoinedEnrollment(es[1..], mks, id)
  }

  /** The stage and stage weight of the `cpl_mk_mapping` row of the (CPL, course) pair, or None. */
  function StageMappingOf(rows: seq<CplMk>, cplId: int, mataKuliahId: int): (r: Option<StageMapping>)
    ensures r.Some? ==> CplMk(cplId, mataKuliahId, r.value.status, r.value.bobotStatus) in rows
    ensures r.None? <==> forall m :: m in rows ==> !(m.cplId == cplId && m.mataKuliahId == mataKuliahId)
  {
    if rows == [] then None
    else if rows[0].cplId == cplId && rows[0].mataKuliahId == mataKuliahId then
      Some(StageMapping(rows[0].status, rows[0].bobotStatus))
    else StageMappingOf(rows[1..], cplId, mataKuliahId)
  }

  /** The pass minimum of the `cpl` row with the id, or None. */
  function Threshold(cpls: seq<Cpl>, cplId: int): (r: Option<real>)
    ensures r.Some? ==> exists c :: c in cpls && c.id == cplId && c.nilaiMinimumKelulusan == r.value
    ensures r.None? <==> forall c :: c in cpls ==> c.id != cplId
  {
    if cpls == [] then None
    else if cpls[0].id == cplId then Some(cpls[0].nilaiMinimumKelulusan)
    else Threshold(cpls[1..], cplId)
  }

  /** The student's most recent `semester_tahun`, or None when the student has no enrollment. */
  function LatestSemester(db: Db, mahasiswaId: int): Option<string> {
    if mahasiswaId in db.latestSemester then Some(db.latestSemester[mahasiswaId]) else None
  }

  // ---------------------------------------------------------------------------
  // Id lists the recalculation pipeline iterates over
  // ---------------------------------------------------------------------------

  /** Some `cpmk` row with this id belongs to the course. */
  predicate CpmkInCourse(cpmks: seq<Cpmk>, cpmkId: int, mataKuliahId: int) {
    exists c :: c in cpmks && c.id == cpmkId && c.mataKuliahId == mataKuliahId
  }

  /** The distinct sub-CPMKs whose CPMK belongs to the course. */
  function SubCpmkIdsOfCourse(db: Db, mataKuliahId: int): (ids: seq<int>)
    ensures forall id :: id in ids <==> exists sc :: sc in db.subCpmk && sc.id == id && CpmkInCourse(db.cpmk, sc.cpmkId, mataKuliahId)
  {
    Distinct(SubCpmksInCourse(db.subCpmk, db.cpmk, mataKuliahId))
  }

  function SubCpmksInCourse(subs: seq<SubCpmk>, cpmks: seq<Cpmk>, mataKuliahId: int): (ids: seq<int>)
    ensures forall id :: id in ids <==> exists sc :: sc in subs && sc.id == id && CpmkInCourse(cpmks, sc.cpmkId, mataKuliahId)
  {
    if subs == [] then []
    else
      var rest := SubCpmksInCourse(subs[1..], cpmks, mataKuliahId);
      assert forall sc :: sc in subs <==> sc == subs[0] || sc in subs[1..];
      (if CpmkInCourse(cpmks, subs[0].cpmkId, mataKuliahId) then [subs[0].id] else []) + rest
  }

  /** The CPMKs of the course. */
  function CpmkIdsOfCourse(cpmks: seq<Cpmk>, mataKuliahId: int): (ids: seq<int>)
    ensures forall id :: id in ids <==> Cpmk(id, mataKuliahId) in cpmks
  {
    if cpmks == [] then []
    else
      var rest := CpmkIdsOfCourse(cpmks[1..], mataKuliahId);
      assert forall c :: c in cpmks <==> c == cpmks[0] || c in cpmks[1..];
      (if cpmks[0].mataKuliahId == mataKuliahId then [cpmks[0].id] else []) + rest
  }

  /** The distinct CPLs the course is mapped to. */
  function CplIdsOfCourse(rows: seq<CplMk>, mataKuliahId: int): (ids: seq<int>)
    ensures forall id :: id in ids <==> exists m :: m in rows && m.cplId == id && m.mataKuliahId == mataKuliahId
  {
    Distinct(CplsOfCourse(rows, mataKuliahId))
  }

  function CplsOfCourse(rows: seq<CplMk>, mataKuliahId: int): (ids: seq<int>)
    ensures forall id :: id in ids <==> exists m :: m in rows && m.cplId == id && m.mataKuliahId == mataKuliahId
  {
    if rows == [] then []
    else
      var rest := CplsOfCourse(rows[1..], mataKuliahId);
      assert forall m :: m in rows <==> m == rows[0] || m in rows[1..];
      (if rows[0].mataKuliahId == mataKuliahId then [rows[0].cplId] else []) + rest
  }

  /** The active CPLs. */
  function ActiveCplIds(cpls: seq<Cpl>): (ids: seq<int>)
    ensures forall id :: id in ids <==> exists c :: c in cpls && c.id == id && c.statusAktif
  {
    if cpls == [] then []
    else
      var rest := ActiveCplIds(cpls[1..]);
      assert forall c :: c in cpls <==> c == cpls[0] || c in cpls[1..];
      (if cpls[0].statusAktif then [cpls[0].id] else []) + rest
  }

  /** The student's enrollments with status 'lulus' or 'aktif'. */
  function EnrollmentIdsOfStudent(es: seq<Enrollment>, mahasiswaId: int): (ids: seq<int>)
    ensures forall id :: id in ids <==> exists e :: e in es && e.id == id && e.mahasiswaId == mahasiswaId && Counts(e.status)
  {
    if es == [] then []
    else
      var rest := EnrollmentIdsOfStudent(es[1..], mahasiswaId);
      assert forall e :: e in es <==> e == es[0] || e in es[1..];
      (if es[0].mahasiswaId == mahasiswaId && Counts(es[0].status) then [es[0].id] else []) + rest
  }

  // ---------------------------------------------------------------------------
  // The row queries of the four levels
  // ---------------------------------------------------------------------------

  /**
   * The level-1 query: `nilai_instrumen` joined with `instrumen_subcpmk_mapping`,
   * the non-null scores of the enrollment with the weights of their mappings to
   * the sub-CPMK.
   */
  function InstrumentRows(db: Db, enrollmentId: int, subCpmkId: int): (rows: seq<InstrumentRow>)
    ensures forall row :: row in rows <==>
              exists n, m :: n in db.nilaiInstrumen && m in db.instrumenSubcpmk
                             && n.enrollmentId == enrollmentId && n.nilaiAngka.Some?
                             && m.instrumenId == n.instrumenId && m.subCpmkId == subCpmkId
                             && row == InstrumentRow(n.nilaiAngka.value, m.bobotSoalPersen)
  {
    ScoreRows(db.nilaiInstrumen, db.instrumenSubcpmk, enrollmentId, subCpmkId)
  }

  function ScoreRows(scores: seq<NilaiInstrumen>, mapping: seq<InstrumenSubcpmk>, enrollmentId: int, subCpmkId: int)
    : (rows: seq<InstrumentRow>)
    ensures forall row :: row in rows <==>
              exists n, m :: n in scores && m in mapping
                             && n.enrollmentId == enrollmentId && n.nilaiAngka.Some?
                             && m.instrumenId == n.instrumenId && m.subCpmkId == subCpmkId
                             && row == InstrumentRow(n.nilaiAngka.value, m.bobotSoalPersen)
  {
    if scores == [] then []
    else
      var s := scores[0];
      var rest := ScoreRows(scores[1..], mapping, enrollmentId, subCpmkId);
      assert forall n :: n in scores <==> n == s || n in scores[1..];
      (if s.enrollmentId == enrollmentId && s.nilaiAngka.Some?
       then MappedWeights(mapping, s.instrumenId, subCpmkId, s.nilaiAngka.value) else [])
      + rest
  }

  function MappedWeights(mapping: seq<InstrumenSubcpmk>, instrumenId: int, subCpmkId: int, nilai: real)
    : (rows: seq<InstrumentRow>)
    ensures forall row :: row in rows <==>
              exists m :: m in mapping && m.instrumenId == instrumenId && m.subCpmkId == subCpmkId
                          && row == InstrumentRow(nilai, m.bobotSoalPersen)
  {
    if mapping == [] then []
    else
      var rest := MappedWeights(mapping[1..], instrumenId, subCpmkId, nilai);
      assert forall m :: m in mapping <==> m == mapping[0] || m in mapping[1..];
      (if mapping[0].instrumenId == instrumenId && mapping[0].subCpmkId == subCpmkId
       then [InstrumentRow(nilai, mapping[0].bobotSoalPersen)] else [])
      + rest
  }

  /** The level-2 query: the stored `nilai_subcpmk` of the enrollment for the CPMK's sub-CPMKs. */
  function SubCpmkRows(subs: seq<SubCpmk>, stored: map<Key, SubCpmkRecord>, enrollmentId: int, cpmkId: int)
    : (rows: seq<SubCpmkRow>)
    ensures forall row :: row in rows <==>
              exists sc :: sc in subs && sc.cpmkId == cpmkId && (enrollmentId, sc.id) in stored
                           && row == SubCpmkRow(stored[(enrollmentId, sc.id)].nilaiKumulatif, sc.bobotPersen)
  {
    if subs == [] then []
    else
      var sc := subs[0];
      var rest := SubCpmkRows(subs[1..], stored, enrollmentId, cpmkId);
      assert forall x :: x in subs <==> x == sc || x in subs[1..];
      (if sc.cpmkId == cpmkId && (enrollmentId, sc.id) in stored
       then [SubCpmkRow(stored[(enrollmentId, sc.id)].nilaiKumulatif, sc.bobotPersen)] else [])
      + rest
  }

  /** The level-3 query: the stored `nilai_cpmk` of the enrollment for the course's CPMKs mapped to the CPL. */
  function CpmkRows(db: Db, stored: map<Key, CpmkRecord>, enrollmentId: int, cplId: int, mataKuliahId: int)
    : (rows: seq<CpmkRow>)
    ensures forall row :: row in rows <==>
              exists m :: m in db.cpmkCpl && m.cplId == cplId && CpmkInCourse(db.cpmk, m.cpmkId, mataKuliahId)
                          && (enrollmentId, m.cpmkId) in stored
                          && row == CpmkRow(stored[(enrollmentId, m.cpmkId)].nilaiKumulatif, m.kontribusiPersen)
  {
    MappedCpmkRows(db.cpmkCpl, db.cpmk, stored, enrollmentId, cplId, mataKuliahId)
  }

  function MappedCpmkRows(mapping: seq<CpmkCpl>, cpmks: seq<Cpmk>, stored: map<Key, CpmkRecord>,
                          enrollmentId: int, cplId: int, mataKuliahId: int): (rows: seq<CpmkRow>)
    ensures forall row :: row in rows <==>
              exists m :: m in mapping && m.cplId == cplId && CpmkInCourse(cpmks, m.cpmkId, mataKuliahId)
                          && (enrollmentId, m.cpmkId) in stored
                          && row == CpmkRow(stored[(enrollmentId, m.cpmkId)].nilaiKumulatif, m.kontribusiPersen)
  {
    if mapping == [] then []
    else
      var m := mapping[0];
      var rest := MappedCpmkRows(mapping[1..], cpmks, stored, enrollmentId, cplId, mataKuliahId);
      assert forall x :: x in mapping <==> x == m || x in mapping[1..];
      (if m.cplId == cplId && CpmkInCourse(cpmks, m.cpmkId, mataKuliahId) && (enrollmentId, m.cpmkId) in stored
       then [CpmkRow(stored[(enrollmentId, m.cpmkId)].nilaiKumulatif, m.kontribusiPersen)] else [])
      + rest
  }

  /**
   * The level-4 query: the stored `capaian_cpl_per_mk` rows of the student for
   * the CPL whose enrollment is 'lulus' or 'aktif'.
   */
  function CplPerMkRows(es: seq<Enrollment>, stored: map<Key, CplPerMkRecord>, mahasiswaId: int, cplId: int)
    : (rows: seq<CplPerMkRow>)
    ensures forall row :: row in rows <==>
              exists e :: e in es && Counts(e.status) && (e.id, cplId) in stored
                          && stored[(e.id, cplId)].mahasiswaId == mahasiswaId
                          && row == CplPerMkRow(stored[(e.id, cplId)].nilaiKontribusi, stored[(e.id, cplId)].statusDalamMk,
                                                stored[(e.id, cplId)].sksMk, stored[(e.id, cplId)].bobotStatus)
  {
    if es == [] then []
    else
      var e := es[0];
      var rest := CplPerMkRows(es[1..], stored, mahasiswaId, cplId);
      assert forall x :: x in es <==> x == e || x in es[1..];
      (if Counts(e.status) && (e.id, cplId) in stored && stored[(e.id, cplId)].mahasiswaId == mahasiswaId
       then var rec := stored[(e.id, cplId)];
            [CplPerMkRow(rec.nilaiKontribusi, rec.statusDalamMk, rec.sksMk, rec.bobotStatus)]
       else [])
      + rest
  }
}
