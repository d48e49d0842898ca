/** The CRM data service (src/services/dataService.ts) as pure functions over
    the store: every operation takes the store and the values it would draw
    from the id generator and the clock, and returns the new store with the
    operation's result. */
module DataService {
  import opened Wrappers
  import opened Entities
  import opened Seqs
  import opened Records
  import opened Text
  import Feed

  /** The store after an operation, with what the operation returns. */
  datatype Reply<T> = Reply(store: Store, value: T)

  // Reading: each collection restricted to the current user.

  function GetLeads(s: Store): seq<Lead> { Owned(s.leads) }
  function GetContacts(s: Store): seq<Contact> { Owned(s.contacts) }
  function GetDeals(s: Store): seq<Deal> { Owned(s.deals) }
  function GetProperties(s: Store): seq<Property> { Owned(s.properties) }
  function GetCourses(s: Store): seq<Course> { Owned(s.courses) }
  function GetTasks(s: Store): seq<Task> { Owned(s.tasks) }

  function GetActivities(s: Store, limit: int): seq<Activity>
  {
    Feed.GetActivities(s.activities, limit)
  }

  /** Exactly one entry was appended to the log: the current user's, stamped
      with `stamp`, of the given kind and title, relating to `relatedId`. */
  ghost predicate LoggedOne(s: Store, t: Store, stamp: LogStamp, kind: ActivityType, title: string, relatedType: string, relatedId: Id)
  {
    && |t.activities| == |s.activities| + 1
    && t.activities[..|s.activities|] == s.activities
    && var a := t.activities[|s.activities|];
    && a.id == stamp.id
    && a.userId == CurrentUserId
    && a.createdAt == stamp.createdAt
    && a.kind == kind
    && a.title == title
    && a.relatedType == Some(relatedType)
    && a.relatedId == Some(relatedId)
  }

  /** `createActivity`: append one entry, owned by the current user. */
  function CreateActivity(s: Store, input: ActivityInput, stamp: LogStamp): (r: Reply<Activity>)
    ensures r.store.activities == s.activities + [r.value]
    ensures r.value.id == stamp.id && r.value.userId == CurrentUserId && r.value.createdAt == stamp.createdAt
    ensures r.value.kind == input.kind && r.value.title == input.title
    ensures r.value.description == input.description
    ensures r.value.relatedType == input.relatedType && r.value.relatedId == input.relatedId
    ensures OnlyWrites(s, r.store, {ActivitiesKey})
  {
    var entry := Activity(stamp.id, CurrentUserId, input.kind, input.title, input.description,
                          input.relatedType, input.relatedId, stamp.createdAt);
    Reply(s.(activities := s.activities + [entry]), entry)
  }

  /** `company || 'Unknown company'`: an absent or empty company reads as unknown. */
  function CompanyOrUnknown(company: Option<string>): string
  {
    if company.None? || company.value == "" then "Unknown company" else company.value
  }

  /** `value?.toLocaleString() || '0'`, without locale digit grouping. */
  function Amount(value: Option<int>): string
  {
    if value.None? then "0" else IntToDecimal(value.value)
  }

  function CreateLead(s: Store, data: LeadBody, f: Fresh, stamp: LogStamp): (r: Reply<Lead>)
    ensures r.store.leads == s.leads + [r.value]
    ensures r.value.id == f.id && IsMine(r.value) && r.value.body == data
    ensures r.value.createdAt == f.createdAt && r.value.updatedAt == f.updatedAt
    ensures LoggedOne(s, r.store, stamp, LeadEvent, "New lead created", "lead", f.id)
    ensures OnlyWrites(s, r.store, {LeadsKey, ActivitiesKey})
  {
    var lead := NewRec(data, f);
    var logged := CreateActivity(
      s.(leads := s.leads + [lead]),
      ActivityInput(LeadEvent, "New lead created",
                    Some(data.name + " from " + CompanyOrUnknown(data.company)),
                    Some("lead"), Some(lead.id)),
      stamp);
    Reply(logged.store, lead)
  }

  function CreateContact(s: Store, data: ContactBody, f: Fresh, stamp: LogStamp): (r: Reply<Contact>)
    ensures r.store.contacts == s.contacts + [r.value]
    ensures r.value.id == f.id && IsMine(r.value) && r.value.body == data
    ensures r.value.createdAt == f.createdAt && r.value.updatedAt == f.updatedAt
    ensures LoggedOne(s, r.store, stamp, ContactEvent, "New contact added", "contact", f.id)
    ensures OnlyWrites(s, r.store, {ContactsKey, ActivitiesKey})
  {
    var contact := NewRec(data, f);
    var logged := CreateActivity(
      s.(contacts := s.contacts + [contact]),
      ActivityInput(ContactEvent, "New contact added",
                    Some(data.name + " from " + CompanyOrUnknown(data.company)),
                    Some("contact"), Some(contact.id)),
      stamp);
    Reply(logged.store, contact)
  }

  function CreateDeal(s: Store, data: DealBody, f: Fresh, stamp: LogStamp): (r: Reply<Deal>)
    ensures r.store.deals == s.deals + [r.value]
    ensures r.value.id == f.id && IsMine(r.value) && r.value.body == data
    ensures r.value.createdAt == f.createdAt && r.value.updatedAt == f.updatedAt
    ensures LoggedOne(s, r.store, stamp, DealEvent, "New deal created", "deal", f.id)
    ensures OnlyWrites(s, r.store, {DealsKey, ActivitiesKey})
  {
    var deal := NewRec(data, f);
    var logged := CreateActivity(
      s.(deals := s.deals + [deal]),
      ActivityInput(DealEvent, "New deal created",
                    Some(data.title + " - $" + Amount(data.value)),
                    Some("deal"), Some(deal.id)),
      stamp);
    Reply(logged.store, deal)
  }

  function CreateProperty(s: Store, data: PropertyBody, f: Fresh, stamp: LogStamp): (r: Reply<Property>)
    ensures r.store.properties == s.properties + [r.value]
    ensures r.value.id == f.id && IsMine(r.value) && r.value.body == data
    ensures r.value.createdAt == f.createdAt && r.value.updatedAt == f.updatedAt
    ensures LoggedOne(s, r.store, stamp, PropertyEvent, "New property listed", "property", f.id)
    ensures OnlyWrites(s, r.store, {PropertiesKey, ActivitiesKey})
  {
    var property := NewRec(data, f);
    var logged := CreateActivity(
      s.(properties := s.properties + [property]),
      ActivityInput(PropertyEvent, "New property listed",
                    Some(data.title + " - $" + Amount(data.price)),
                    Some("property"), Some(property.id)),
      stamp);
    Reply(logged.store, property)
  }

  function CreateCourse(s: Store, data: CourseBody, f: Fresh, stamp: LogStamp): (r: Reply<Course>)
    ensures r.store.courses == s.courses + [r.value]
    ensures r.value.id == f.id && IsMine(r.value) && r.value.body == data
    ensures r.value.createdAt == f.createdAt && r.value.updatedAt == f.updatedAt
    ensures LoggedOne(s, r.store, stamp, CourseEvent, "New course created", "course", f.id)
    ensures OnlyWrites(s, r.store, {CoursesKey, ActivitiesKey})
  {
    var course := NewRec(data, f);
    var logged := CreateActivity(
      s.(courses := s.courses + [course]),
      ActivityInput(CourseEvent, "New course created",
                    Some(data.title + " - " + LevelName(data.level) + " level"),
                    Some("course"), Some(course.id)),
      stamp);
    Reply(logged.store, course)
  }

  /** Unlike the other creations, a task is not logged. */
  function CreateTask(s: Store, data: TaskBody, f: Fresh): (r: Reply<Task>)
    ensures r.store.tasks == s.tasks + [r.value]
    ensures r.value.id == f.id && IsMine(r.value) && r.value.body == data
    ensures r.value.createdAt == f.createdAt && r.value.updatedAt == f.updatedAt
    ensures OnlyWrites(s, r.store, {TasksKey})
  {
    var task := NewRec(data, f);
    Reply(s.(tasks := s.tasks + [task]), task)
  }

  function UpdateLead(s: Store, id: Id, p: Patch<LeadPatch>, now: Timestamp): (r: Reply<Option<Lead>>)
    ensures UpdatedFirstTarget(s.leads, id, now, r.store.leads, r.value)
    ensures r.value.Some? ==> r.value.value == Merge(s.leads[FindTarget(s.leads, id)], p, now, MergeLead)
    ensures OnlyWrites(s, r.store, {LeadsKey})
  {
    var (leads, res) := UpdateTarget(s.leads, id, p, now, MergeLead);
    Reply(s.(leads := leads), res)
  }

  function UpdateContact(s: Store, id: Id, p: Patch<ContactPatch>, now: Timestamp): (r: Reply<Option<Contact>>)
    ensures UpdatedFirstTarget(s.contacts, id, now, r.store.contacts, r.value)
    ensures r.value.Some? ==> r.value.value == Merge(s.contacts[FindTarget(s.contacts, id)], p, now, MergeContact)
    ensures OnlyWrites(s, r.store, {ContactsKey})
  {
    var (contacts, res) := UpdateTarget(s.contacts, id, p, now, MergeContact);
    Reply(s.(contacts := contacts), res)
  }

  function UpdateTask(s: Store, id: Id, p: Patch<TaskPatch>, now: Timestamp): (r: Reply<Option<Task>>)
    ensures UpdatedFirstTarget(s.tasks, id, now, r.store.tasks, r.value)
    ensures r.value.Some? ==> r.value.value == Merge(s.tasks[FindTarget(s.tasks, id)], p, now, MergeTask)
    ensures OnlyWrites(s, r.store, {TasksKey})
  {
    var (tasks, res) := UpdateTarget(s.tasks, id, p, now, MergeTask);
    Reply(s.(tasks := tasks), res)
  }

  /** The update addresses a deal and names a stage other than the deal's current one. */
  predicate StageChanges(deals: seq<Deal>, id: Id, p: Patch<DealPatch>)
  {
    var i := FindTarget(deals, id);
    i >= 0 && p.body.stage.Some? && p.body.stage.value != deals[i].body.stage
  }

  /** `updateDeal`: as the other updates, and a stage change is logged. */
  function UpdateDeal(s: Store, id: Id, p: Patch<DealPatch>, now: Timestamp, stamp: LogStamp): (r: Reply<Option<Deal>>)
    ensures UpdatedFirstTarget(s.deals, id, now, r.store.deals, r.value)
    ensures r.value.Some? ==> r.value.value == Merge(s.deals[FindTarget(s.deals, id)], p, now, MergeDeal)
    ensures OnlyWrites(s, r.store, {DealsKey, ActivitiesKey})
    ensures StageChanges(s.deals, id, p) ==>
              r.value.Some? && LoggedOne(s, r.store, stamp, DealEvent, "Deal stage updated", "deal", r.value.value.id)
    ensures !StageChanges(s.deals, id, p) ==> r.store.activities == s.activities
  {
    var (deals, res) := UpdateTarget(s.deals, id, p, now, MergeDeal);
    if res.None? then Reply(s, None)
    else
      var updated := s.(deals := deals);
      var oldStage := s.deals[FindTarget(s.deals, id)].body.stage;
      if p.body.stage.Some? && p.body.stage.value != oldStage then
        var logged := CreateActivity(
          updated,
          ActivityInput(DealEvent, "Deal stage updated",
                        Some(res.value.body.title + " moved to " + StageName(p.body.stage.value)),
                        Some("deal"), Some(res.value.id)),
          stamp);
        Reply(logged.store, res)
      else
        Reply(updated, res)
  }

  function DeleteLead(s: Store, id: Id): (r: Reply<bool>)
    ensures RemovedTargets(s.leads, id, r.store.leads, r.value)
    ensures OnlyWrites(s, r.store, {LeadsKey})
    ensures !r.value ==> r.store == s
  {
    var (leads, removed) := DeleteTargets(s.leads, id);
    if removed then Reply(s.(leads := leads), true) else Reply(s, false)
  }

  // Laws relating the operations to one another.

  /** A lead created under an id no lead of the user has is the one a later
      update or delete of that id addresses. */
  lemma CreatedLeadIsAddressed(s: Store, data: LeadBody, f: Fresh, stamp: LogStamp)
    requires NoTarget(s.leads, f.id)
    ensures FindTarget(CreateLead(s, data, f, stamp).store.leads, f.id) == |s.leads|
  {
    var leads := CreateLead(s, data, f, stamp).store.leads;
    assert forall j :: 0 <= j < |s.leads| ==> leads[j] == s.leads[j];
    assert Targets(leads[|s.leads|], f.id);
  }

  /** Deleting a lead just created under a fresh id restores the leads as
      they were; only the creation's log entry remains. */
  lemma DeleteUndoesCreateLead(s: Store, data: LeadBody, f: Fresh, stamp: LogStamp)
    requires NoTarget(s.leads, f.id)
    ensures var created := CreateLead(s, data, f, stamp).store;
            DeleteLead(created, f.id) == Reply(created.(leads := s.leads), true)
  {
    var created := CreateLead(s, data, f, stamp);
    var keep := (x: Lead) => !Targets(x, f.id);
    FilterSnoc(s.leads, created.value, keep);
    FilterKeepsAllIff(s.leads, keep);
  }

  /** A second delete of the same id finds nothing and changes nothing. */
  lemma DeleteLeadIdempotent(s: Store, id: Id)
    ensures var once := DeleteLead(s, id).store;
            DeleteLead(once, id) == Reply(once, false)
  {
    var once := DeleteLead(s, id).store;
    assert forall x :: x in once.leads ==> !Targets(x, id);
    assert NoTarget(once.leads, id) by {
      forall i | 0 <= i < |once.leads|
        ensures !Targets(once.leads[i], id)
      {
        assert once.leads[i] in once.leads;
      }
    }
  }

  /** Repeating an update that leaves id and owner alone, at the same time,
      changes nothing further. */
  lemma UpdateLeadIdempotent(s: Store, id: Id, p: Patch<LeadPatch>, now: Timestamp)
    requires p.id.None? && p.userId.None?
    ensures var once := UpdateLead(s, id, p, now);
            UpdateLead(once.store, id, p, now) == once
  {
    var once := UpdateLead(s, id, p, now);
    if !NoTarget(s.leads, id) {
      var i := FindTarget(s.leads, id);
      var t := once.store.leads;
      assert Targets(t[i], id);
      assert forall j :: 0 <= j < i ==> t[j] == s.leads[j];
      assert FindTarget(t, id) == i;
      assert t[i := Merge(t[i], p, now, MergeLead)] == t;
    }
  }
}
