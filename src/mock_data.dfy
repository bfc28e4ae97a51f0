/** The seed data the dashboard shows when no backend is connected, and the facts
    about it that the pages rely on: unique ids, references that resolve, and records
    whose scores and notes agree with their level. */
module MockData {
  import opened Wrappers
  import opened Types
  import opened SeqUtil

  const Departments: seq<Department> := [
    Department("d1", "IT", "Information Technology", "John Doe"),
    Department("d2", "HR", "Human Resources", "Jane Smith")]

  const AlicePhoto: string :=
    "https://images.unsplash.com/photo-1573496359142-b8d87734a5a2?q=80&w=200&auto=format&fit=crop"

  const Employees: seq<Employee> := [
    Employee("e1", "001", "Alice Tech", "d1", "Manager", "alice@example.com", Manager,
      Some("123"), Some(AlicePhoto)),
    Employee("e2", "002", "Bob Human", "d2", "Recruiter", "bob@example.com", EmployeeRole,
      Some("123"), None)]

  const K1Rules: map<Level, seq<string>> := map[
        F := ["พบคะแนน Bug Critical มากกว่า 5 จุด", "Code ไม่ผ่าน Unit Test"],
        UP := ["พบ Bug Critical 3-4 จุด", "แก้ไขงานล่าช้ากว่ากำหนด"],
        PP := ["พบ Bug เล็กน้อยจำนวนมาก", "Coverage ต่ำกว่า 60%"],
        GP := ["ไม่มี Bug Critical หลุดไป Production", "Unit Test Coverage > 80%"],
        CP := ["Code สะอาด อ่านง่าย ตามมาตรฐาน", "ส่งมอบงานก่อนกำหนด 10%"],
        EP := ["Zero Bug ใน Production ต่อเนื่อง", "ช่วยปรับปรุง Architecture ของระบบให้ดีขึ้น"]]

  const K2Rules: map<Level, seq<string>> := map[
        F := ["หาคนไม่ได้เลยตามกำหนด", "ผู้สมัครไม่ผ่านเกณฑ์เบื้องต้น"],
        UP := ["หาคนได้ต่ำกว่า 50% ของเป้าหมาย", "เอกสารสัญญาจ้างผิดพลาด"],
        PP := ["หาคนได้ 70% ของเป้าหมาย", "ใช้เวลาปิดรับสมัครนานกว่า SLA"],
        GP := ["หาคนได้ครบ 100% ตามเป้าหมาย", "ปิดรับสมัครภายใน SLA 45 วัน"],
        CP := ["หาคนได้ครบและเริ่มงานได้ทันที", "ได้รับ Feedback ดีจาก Hiring Manager"],
        EP := ["หาคนได้เกินเป้าหมาย (Talent Pool)", "ลดระยะเวลา Time-to-hire ได้ 20%"]]

  const Kpis: seq<Kpi> := [
    Kpi("k1", "KPI-01", "Code Quality (Bug Rate)", "Review", 50, Monthly,
      "Bugs per line of code", Some(K1Rules)),
    Kpi("k2", "KPI-02", "Recruitment Success", "Hiring", 40, Monthly,
      "Positions filled within SLA", Some(K2Rules)),
    Kpi("k3", "KPI-03", "Risk Management (ISO31000)", "Risk Assessment", 10, Quarterly,
      "Quarterly Risk Assessment", None)]

  const Assignments: seq<Assignment> := [
    Assignment("a1", "e1", "k1", 50, "2023-01-01"),
    Assignment("a2", "e2", "k2", 40, "2023-01-01"),
    Assignment("a3", "e1", "k3", 10, "2023-01-01")]

  const Activities: seq<Activity> := [
    Activity("ac1", "k1", "ACT-01", "Pull Request Review", "Reviewing PRs", true),
    Activity("ac2", "k2", "ACT-02", "Interviewing", "Conducting interviews", true),
    Activity("ac3", "k3", "ACT-03", "Risk Identification", "Identify risks", true)]

  const Records: seq<KpiRecord> := [
    KpiRecord("r1", "2023-10-01", "e1", "k1", "ac1", "Pull Request Review", "monthly",
      "month-10-2023", CP, 4, 50, 2.0, "Code สะอาด อ่านง่าย ตามมาตรฐาน\nส่งมอบงานก่อนกำหนด 10%", Some("Good job")),
    KpiRecord("r2", "2023-10-01", "e2", "k2", "ac2", "Interviewing", "monthly",
      "month-10-2023", GP, 3, 40, 1.2, "หาคนได้ครบ 100% ตามเป้าหมาย\nปิดรับสมัครภายใน SLA 45 วัน", Some("Met target"))]

  /** The level descriptions of KPI-03, one per level. */
  const LevelRules: seq<LevelRule> := [
    LevelRule("lr_k3_f", F, "", "", "k3", "", "ไม่จัดทำการประเมินความเสี่ยงระดับหน่วยงาน\nไม่จัดทำหรือไม่ส่งแผนควบคุมความเสี่ยงภายในไตรมาส\nการประสานงานกับ Risk Owner มีปัญหา"),
    LevelRule("lr_k3_up", UP, "", "", "k3", "", "รวบรวมความเสี่ยงได้ต่ำกว่า 70% ของหน่วยงานที่รับผิดชอบ\nแผนควบคุมความเสี่ยงไม่ครบถ้วน หรือไม่เป็นไปตามรูปแบบที่กำหนด\nการประสานงานกับ Risk Owner มีปัญหา"),
    LevelRule("lr_k3_pp", PP, "", "", "k3", "", "รวบรวมความเสี่ยงได้ไม่ถึง 90%\nแผนควบคุมความเสี่ยงยังขาดความชัดเจนในบางส่วน\nการประสานงานกับ Risk Owner ไม่มีปัญหา"),
    LevelRule("lr_k3_gp", GP, "", "", "k3", "", "รวบรวมความเสี่ยงระดับหน่วยงานครบ 100% ภายในไตรมาส\nแผนควบคุมความเสี่ยงครบถ้วน ถูกต้องตามแบบฟอร์มที่กำหนด\nการประสานงานกับ Risk Owner ไม่มีปัญหา"),
    LevelRule("lr_k3_cp", CP, "", "", "k3", "", "รวบรวมความเสี่ยงครบ 100% ก่อนถึงกำหนดของแต่ละไตรมาส อย่างน้อย 2 ไตรมาส\nแผนควบคุมความเสี่ยงมีความเชื่อมโยงกับแนวโน้มความเสี่ยงของหน่วยงาน\nข้อมูลมีคุณภาพ พร้อมใช้ในการติดตามระดับองค์กร\nการประสานงานกับ Risk Owner ไม่มีปัญหา"),
    LevelRule("lr_k3_ep", EP, "", "", "k3", "", "รวบรวมและจัดทำความเสี่ยงครบ 100% ก่อนถึงกำหนดของแต่ละไตรมาส ทุกไตรมาส\nแผนควบคุมความเสี่ยงมีลักษณะเชิงป้องกันล่วงหน้า / เชิงปรับปรุง\nสนับสนุนข้อมูลเชิงลึกให้ผู้จัดการฝ่ายใช้ประกอบการตัดสินใจเชิงกลยุทธ์\nการประสานงานกับ Risk Owner ไม่มีปัญหา")]

  /** Every seed collection but the level rules has unique ids. */
  lemma SeedIdsUnique()
    ensures NoDuplicates(Map(Departments, (d: Department) => d.id))
    ensures NoDuplicates(Map(Employees, (e: Employee) => e.id))
    ensures NoDuplicates(Map(Kpis, (k: Kpi) => k.id))
    ensures NoDuplicates(Map(Assignments, (a: Assignment) => a.id))
    ensures NoDuplicates(Map(Activities, (a: Activity) => a.id))
    ensures NoDuplicates(Map(Records, (r: KpiRecord) => r.id))
  {
  }

  /** The level rule ids are unique: they differ in their seventh character, the
      level's initial. */
  lemma SeedLevelRuleIdsUnique()
    ensures NoDuplicates(Map(LevelRules, (r: LevelRule) => r.id))
  {
    var ids := Map(LevelRules, (r: LevelRule) => r.id);
    assert |ids| == 6;
    assert ids[0] == LevelRules[0].id && ids[1] == LevelRules[1].id && ids[2] == LevelRules[2].id;
    assert ids[3] == LevelRules[3].id && ids[4] == LevelRules[4].id && ids[5] == LevelRules[5].id;
    assert ids[0][6] == 'f' && ids[1][6] == 'u' && ids[2][6] == 'p';
    assert ids[3][6] == 'g' && ids[4][6] == 'c' && ids[5][6] == 'e';
  }

  /** Every reference in the seed resolves: employees to departments, assignments and
      records to employees and KPIs, records to an active activity of their own KPI. */
  lemma SeedReferencesResolve()
    ensures forall e :: e in Employees ==> exists d :: d in Departments && d.id == e.departmentId
    ensures forall a :: a in Assignments ==>
      (exists e :: e in Employees && e.id == a.employeeId) && (exists k :: k in Kpis && k.id == a.kpiId)
    ensures forall ac :: ac in Activities ==> exists k :: k in Kpis && k.id == ac.kpiId
    ensures forall r :: r in Records ==>
      exists ac :: ac in Activities && ac.id == r.activityId && ac.kpiId == r.kpiId
        && ac.active && ac.name == r.activityName
  {
    assert Departments[0] in Departments && Departments[1] in Departments;
    assert Employees[0] in Employees && Employees[1] in Employees;
    assert Kpis[0] in Kpis && Kpis[1] in Kpis && Kpis[2] in Kpis;
    assert Activities[0] in Activities && Activities[1] in Activities;
  }

  /** Each seed record scores like a form would have scored it: its score is its level's
      score, its weight is its assignment's weight, and its weighted score is their
      product over 100. */
  lemma SeedRecordsConsistent()
    ensures forall r :: r in Records ==>
      && r.score == LevelScore(r.level)
      && r.weightedScore == WeightedScore(r.score, r.weight)
      && (exists a :: a in Assignments && a.employeeId == r.employeeId && a.kpiId == r.kpiId
            && a.weight == r.weight)
  {
    assert Assignments[0] in Assignments && Assignments[1] in Assignments;
  }

  /** The seed level rules give one description per level, in the order F .. EP, all
      for KPI k3. */
  lemma SeedLevelRulesOnePerLevel()
    ensures |LevelRules| == 6
    ensures forall i :: 0 <= i < |LevelRules| ==> LevelRules[i].level == [F, UP, PP, GP, CP, EP][i]
    ensures forall lr :: lr in LevelRules ==> lr.kpiId == "k3"
  {
  }

  /** The seed sizes, and the seed manager: the employee with code 001 and password 123. */
  lemma SeedCounts()
    ensures |Departments| == 2 && |Employees| == 2 && |Kpis| == 3
    ensures |Assignments| == 3 && |Activities| == 3 && |Records| == 2
    ensures forall e :: e in Employees && e.code == "001" && e.password == Some("123")
              ==> e.role == Manager
  {
  }

  /** No two seed assignments share an (employee, KPI) pair, and every seed activity is active. */
  lemma SeedAssignmentPairsUnique()
    ensures UniquePairs(Assignments)
    ensures forall a :: a in Activities ==> a.active
  {
  }
}
