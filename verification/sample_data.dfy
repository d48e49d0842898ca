/** `initializeSampleData` (src/services/dataService.ts): seeds a store whose
    user has no leads with three leads, one contact, two deals and two tasks. */
module SampleData {
  import opened Wrappers
  import opened Entities
  import opened Records
  import opened DataService

  const Hour: int := 60 * 60 * 1000
  const Day: int := 24 * Hour

  /** What a seeding run draws from its environment, in the order it draws
      them: the id and clock reads of the eight records, those of the six log
      entries, and the five clock reads inside the sample literals. */
  datatype SampleEnv = SampleEnv(records: seq<Fresh>, entries: seq<LogStamp>, clock: seq<Timestamp>)
  {
    predicate WellSized()
    {
      |records| == 8 && |entries| == 6 && |clock| == 5
    }
  }

  const SampleLeads: seq<LeadBody> := [
    LeadBody("Sarah Johnson", "sarah.johnson@techcorp.com", Some("+1 (555) 123-4567"),
             Some("TechCorp Solutions"), Some("CTO"), "Website", New, Some("Technology"), None),
    LeadBody("Michael Chen", "michael.chen@edustart.com", Some("+1 (555) 234-5678"),
             Some("EduStart Inc"), Some("Product Manager"), "LinkedIn", Qualified, Some("Education"), None),
    LeadBody("Emily Rodriguez", "emily.r@realestate.com", Some("+1 (555) 345-6789"),
             Some("Prime Properties"), Some("Sales Director"), "Referral", Contacted, Some("Real Estate"), None)
  ]

  function SampleContact(now: Timestamp): ContactBody
  {
    ContactBody("David Kim", "david.kim@learningtech.com", Some("+1 (555) 456-7890"),
                Some("Learning Tech"), Some("CEO"), Some("EdTech"), None, Some(now - 2 * Day))
  }

  function SampleDeals(now1: Timestamp, now2: Timestamp): seq<DealBody>
  {
    [ DealBody("Enterprise Software License", Some("Annual license for 100 users"), Some(45000),
               Negotiation, 75, Some(now1 + 7 * Day), None, None),
      DealBody("Real Estate Commission", Some("Property sale at 123 Main St"), Some(15000),
               Proposal, 60, Some(now2 + 14 * Day), None, None) ]
  }

  function SampleTasks(now1: Timestamp, now2: Timestamp): seq<TaskBody>
  {
    [ TaskBody("Follow up with ABC Corp", Some("Send proposal and schedule demo"),
               Some(now1 + 2 * Hour), High, TaskStatus.Pending, None, None),
      TaskBody("Prepare demo for TechStart", Some("Customize demo for their use case"),
               Some(now2 + Day), Medium, TaskStatus.Pending, None, None) ]
  }

  /** The records a seeding run adds to each collection, stamped with the
      run's fresh values. */
  function SeededLeads(f: seq<Fresh>): seq<Lead>
    requires |f| >= 3
  {
    [NewRec(SampleLeads[0], f[0]), NewRec(SampleLeads[1], f[1]), NewRec(SampleLeads[2], f[2])]
  }

  function SeededDeals(now1: Timestamp, now2: Timestamp, f: seq<Fresh>): seq<Deal>
    requires |f| >= 2
  {
    var deals := SampleDeals(now1, now2);
    [NewRec(deals[0], f[0]), NewRec(deals[1], f[1])]
  }

  function SeededTasks(now1: Timestamp, now2: Timestamp, f: seq<Fresh>): seq<Task>
    requires |f| >= 2
  {
    var tasks := SampleTasks(now1, now2);
    [NewRec(tasks[0], f[0]), NewRec(tasks[1], f[1])]
  }

  /** `t`'s log is `s`'s with `k` more entries, all the current user's. */
  ghost predicate LogGrew(s: Store, t: Store, k: nat)
  {
    && |t.activities| == |s.activities| + k
    && t.activities[..|s.activities|] == s.activities
    && forall i :: |s.activities| <= i < |t.activities| ==> t.activities[i].userId == CurrentUserId
  }

  lemma LogGrewOne(s: Store, t: Store, stamp: LogStamp, kind: ActivityType, title: string, relatedType: string, relatedId: Id)
    requires LoggedOne(s, t, stamp, kind, title, relatedType, relatedId)
    ensures LogGrew(s, t, 1)
  {
  }

  lemma LogGrewTrans(s: Store, t: Store, u: Store, j: nat, k: nat)
    requires LogGrew(s, t, j) && LogGrew(t, u, k)
    ensures LogGrew(s, u, j + k)
  {
    assert u.activities[..|s.activities|] == u.activities[..|t.activities|][..|s.activities|];
  }

  /** The three sample leads, each created and logged. */
  function AddSampleLeads(s: Store, f: seq<Fresh>, e: seq<LogStamp>): (r: Store)
    requires |f| == 3 && |e| == 3
    ensures r.leads == s.leads + SeededLeads(f)
    ensures OnlyWrites(s, r, {LeadsKey, ActivitiesKey})
    ensures LogGrew(s, r, 3)
  {
    var r1 := CreateLead(s, SampleLeads[0], f[0], e[0]);
    var r2 := CreateLead(r1.store, SampleLeads[1], f[1], e[1]);
    var r3 := CreateLead(r2.store, SampleLeads[2], f[2], e[2]);
    LogGrewOne(s, r1.store, e[0], LeadEvent, "New lead created", "lead", f[0].id);
    LogGrewOne(r1.store, r2.store, e[1], LeadEvent, "New lead created", "lead", f[1].id);
    LogGrewOne(r2.store, r3.store, e[2], LeadEvent, "New lead created", "lead", f[2].id);
    LogGrewTrans(s, r1.store, r2.store, 1, 1);
    LogGrewTrans(s, r2.store, r3.store, 2, 1);
    r3.store
  }

  /** The sample contact, created and logged. */
  function AddSampleContact(s: Store, now: Timestamp, f: Fresh, e: LogStamp): (r: Store)
    ensures r.contacts == s.contacts + [NewRec(SampleContact(now), f)]
    ensures OnlyWrites(s, r, {ContactsKey, ActivitiesKey})
    ensures LogGrew(s, r, 1)
  {
    var r1 := CreateContact(s, SampleContact(now), f, e);
    LogGrewOne(s, r1.store, e, ContactEvent, "New contact added", "contact", f.id);
    r1.store
  }

  /** The two sample deals, each created and logged. */
  function AddSampleDeals(s: Store, now1: Timestamp, now2: Timestamp, f: seq<Fresh>, e: seq<LogStamp>): (r: Store)
    requires |f| == 2 && |e| == 2
    ensures r.deals == s.deals + SeededDeals(now1, now2, f)
    ensures OnlyWrites(s, r, {DealsKey, ActivitiesKey})
    ensures LogGrew(s, r, 2)
  {
    var deals := SampleDeals(now1, now2);
    var r1 := CreateDeal(s, deals[0], f[0], e[0]);
    var r2 := CreateDeal(r1.store, deals[1], f[1], e[1]);
    LogGrewOne(s, r1.store, e[0], DealEvent, "New deal created", "deal", f[0].id);
    LogGrewOne(r1.store, r2.store, e[1], DealEvent, "New deal created", "deal", f[1].id);
    LogGrewTrans(s, r1.store, r2.store, 1, 1);
    r2.store
  }

  /** The two sample tasks, created without logging. */
  function AddSampleTasks(s: Store, now1: Timestamp, now2: Timestamp, f: seq<Fresh>): (r: Store)
    requires |f| == 2
    ensures r.tasks == s.tasks + SeededTasks(now1, now2, f)
    ensures OnlyWrites(s, r, {TasksKey})
  {
    var tasks := SampleTasks(now1, now2);
    var r1 := CreateTask(s, tasks[0], f[0]);
    CreateTask(r1.store, tasks[1], f[1]).store
  }

  /** The first half of a seeding run: the leads, then the contact. */
  function SeedPeople(s: Store, env: SampleEnv): (r: Store)
    requires env.WellSized()
    ensures r.leads == s.leads + SeededLeads(env.records[..3])
    ensures r.contacts == s.contacts + [NewRec(SampleContact(env.clock[0]), env.records[3])]
    ensures OnlyWrites(s, r, {LeadsKey, ContactsKey, ActivitiesKey})
    ensures LogGrew(s, r, 4)
  {
    var s1 := AddSampleLeads(s, env.records[..3], env.entries[..3]);
    var s2 := AddSampleContact(s1, env.clock[0], env.records[3], env.entries[3]);
    LogGrewTrans(s, s1, s2, 3, 1);
    s2
  }

  /** The second half of a seeding run: the deals, then the tasks. */
  function SeedWork(s: Store, env: SampleEnv): (r: Store)
    requires env.WellSized()
    ensures r.deals == s.deals + SeededDeals(env.clock[1], env.clock[2], env.records[4..6])
    ensures r.tasks == s.tasks + SeededTasks(env.clock[3], env.clock[4], env.records[6..])
    ensures OnlyWrites(s, r, {DealsKey, TasksKey, ActivitiesKey})
    ensures LogGrew(s, r, 2)
  {
    var s1 := AddSampleDeals(s, env.clock[1], env.clock[2], env.records[4..6], env.entries[4..6]);
    AddSampleTasks(s1, env.clock[3], env.clock[4], env.records[6..])
  }

  /** What a seeding run leaves behind: each seeded collection extended by its
      sample records, stamped with the run's fresh values; properties and
      courses untouched; six entries of the user added to the log. */
  ghost predicate SeededFrom(s: Store, r: Store, env: SampleEnv)
    requires env.WellSized()
  {
    && r.leads == s.leads + SeededLeads(env.records[..3])
    && r.contacts == s.contacts + [NewRec(SampleContact(env.clock[0]), env.records[3])]
    && r.deals == s.deals + SeededDeals(env.clock[1], env.clock[2], env.records[4..6])
    && r.tasks == s.tasks + SeededTasks(env.clock[3], env.clock[4], env.records[6..])
    && r.properties == s.properties && r.courses == s.courses
    && LogGrew(s, r, 6)
  }

  /** The seeding itself, in the service's order: leads, contact, deals, tasks. */
  function Seed(s: Store, env: SampleEnv): (r: Store)
    requires env.WellSized()
    ensures SeededFrom(s, r, env)
  {
    var s1 := SeedPeople(s, env);
    var s2 := SeedWork(s1, env);
    LogGrewTrans(s, s1, s2, 4, 2);
    s2
  }

  /** `initializeSampleData()`: seed only when the current user has no lead. */
  function InitializeSampleData(s: Store, env: SampleEnv): (r: Store)
    requires env.WellSized()
    ensures |GetLeads(s)| > 0 ==> r == s
    ensures |GetLeads(s)| == 0 ==> SeededFrom(s, r, env)
    ensures |GetLeads(s)| == 0 ==> GetLeads(r) == SeededLeads(env.records[..3]) && |GetLeads(r)| == 3
  {
    if |GetLeads(s)| > 0 then s
    else
      var r := Seed(s, env);
      SeedLeavesThreeLeads(s, r, env);
      r
  }

  /** The current user's leads after appending `added`, all of them the
      current user's, are the old ones followed by `added`. */
  lemma {:induction false} SeededLeadsOwned(leads: seq<Lead>, added: seq<Lead>)
    requires forall i :: 0 <= i < |added| ==> IsMine(added[i])
    ensures Owned(leads + added) == Owned(leads) + Owned(added)
    ensures Owned(added) == added
    decreases |added|
  {
    if |added| > 0 {
      var a' := added[..|added| - 1];
      var x := added[|added| - 1];
      assert added == a' + [x];
      assert leads + added == (leads + a') + [x];
      SeededLeadsOwned(leads, a');
      OwnedSnoc(leads + a', x);
      OwnedSnoc(a', x);
    } else {
      assert leads + added == leads;
    }
  }

  /** After seeding, the current user's leads are exactly the three sample ones. */
  lemma SeedLeavesThreeLeads(s: Store, r: Store, env: SampleEnv)
    requires env.WellSized() && SeededFrom(s, r, env)
    ensures GetLeads(r) == GetLeads(s) + SeededLeads(env.records[..3])
  {
    var added := SeededLeads(env.records[..3]);
    assert forall i :: 0 <= i < |added| ==> IsMine(added[i]);
    SeededLeadsOwned(s.leads, added);
  }

  /** Seeding twice is seeding once: the first run leaves the user with
      leads, so the second does nothing, whatever it would have drawn. */
  lemma InitializeIsIdempotent(s: Store, env: SampleEnv, env': SampleEnv)
    requires env.WellSized() && env'.WellSized()
    ensures InitializeSampleData(InitializeSampleData(s, env), env') == InitializeSampleData(s, env)
  {
  }
}
