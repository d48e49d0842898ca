/** The records the CRM data service stores (src/services/dataService.ts),
    the partial updates it accepts, and the store that holds one collection
    per browser-storage key. */
module Entities {
  import opened Wrappers

  type Id = string
  type UserId = string

  /** A point in time, in milliseconds since the epoch. The service stores
      ISO-8601 strings and compares them through `new Date(s).getTime()`,
      which recovers exactly this number. */
  type Timestamp = int

  /** The owner every operation acts for: the service hard-codes it. */
  const CurrentUserId: UserId := "current-user-id"

  datatype LeadStatus = New | Qualified | Contacted | Nurturing | Converted | Lost

  datatype DealStage = Prospecting | Qualification | Proposal | Negotiation | ClosedWon | ClosedLost

  datatype PropertyStatus = Available | Pending | Sold | OffMarket

  datatype CourseLevel = Beginner | Intermediate | Advanced

  datatype CourseStatus = Active | Inactive | Draft

  datatype TaskPriority = Low | Medium | High

  datatype TaskStatus = Pending | Completed | Cancelled

  datatype ActivityType =
    | LeadEvent | ContactEvent | DealEvent | PropertyEvent | CourseEvent
    | Call | Email | Meeting | Note

  /** The string a deal stage is stored and displayed as. */
  function StageName(stage: DealStage): string
  {
    match stage
    case Prospecting => "prospecting"
    case Qualification => "qualification"
    case Proposal => "proposal"
    case Negotiation => "negotiation"
    case ClosedWon => "closed-won"
    case ClosedLost => "closed-lost"
  }

  /** The string a course level is stored and displayed as. */
  function LevelName(level: CourseLevel): string
  {
    match level
    case Beginner => "beginner"
    case Intermediate => "intermediate"
    case Advanced => "advanced"
  }

  // The entity-specific fields of each record kind; a field marked `?` in the
  // source is an `Option`.

  datatype LeadBody = LeadBody(
    name: string, email: string, phone: Option<string>, company: Option<string>,
    position: Option<string>, source: string, status: LeadStatus,
    industry: Option<string>, notes: Option<string>)

  datatype ContactBody = ContactBody(
    name: string, email: string, phone: Option<string>, company: Option<string>,
    position: Option<string>, industry: Option<string>, notes: Option<string>,
    lastContactDate: Option<Timestamp>)

  datatype DealBody = DealBody(
    title: string, description: Option<string>, value: Option<int>, stage: DealStage,
    probability: int, expectedCloseDate: Option<Timestamp>, contactId: Option<Id>,
    leadId: Option<Id>)

  datatype PropertyBody = PropertyBody(
    title: string, description: Option<string>, address: Option<string>,
    price: Option<int>, propertyType: string, bedrooms: Option<int>,
    bathrooms: Option<int>, squareFeet: Option<int>, status: PropertyStatus,
    contactId: Option<Id>)

  datatype CourseBody = CourseBody(
    title: string, description: Option<string>, price: Option<int>,
    durationHours: Option<int>, level: CourseLevel, category: string,
    status: CourseStatus, enrollmentCount: int)

  datatype TaskBody = TaskBody(
    title: string, description: Option<string>, dueDate: Option<Timestamp>,
    priority: TaskPriority, status: TaskStatus, relatedType: Option<string>,
    relatedId: Option<Id>)

  /** A stored record: the identity, owner and lifecycle stamps every entity
      kind carries, around its entity-specific fields. */
  datatype Rec<B> = Rec(id: Id, userId: UserId, body: B, createdAt: Timestamp, updatedAt: Timestamp)

  type Lead = Rec<LeadBody>
  type Contact = Rec<ContactBody>
  type Deal = Rec<DealBody>
  type Property = Rec<PropertyBody>
  type Course = Rec<CourseBody>
  type Task = Rec<TaskBody>

  /** An entry of the append-only activity log. */
  datatype Activity = Activity(
    id: Id, userId: UserId, kind: ActivityType, title: string,
    description: Option<string>, relatedType: Option<string>, relatedId: Option<Id>,
    createdAt: Timestamp)

  /** What a caller supplies to log an activity: everything but id, owner and time. */
  datatype ActivityInput = ActivityInput(
    kind: ActivityType, title: string, description: Option<string>,
    relatedType: Option<string>, relatedId: Option<Id>)

  /** The browser storage, one collection per key (`crm_leads`, `crm_contacts`,
      `crm_deals`, `crm_properties`, `crm_courses`, `crm_tasks`,
      `crm_activities`). A key never written reads as the empty collection. */
  datatype Store = Store(
    leads: seq<Lead>, contacts: seq<Contact>, deals: seq<Deal>,
    properties: seq<Property>, courses: seq<Course>, tasks: seq<Task>,
    activities: seq<Activity>)

  const EmptyStore := Store([], [], [], [], [], [], [])

  /** The storage keys. */
  datatype Key = LeadsKey | ContactsKey | DealsKey | PropertiesKey | CoursesKey | TasksKey | ActivitiesKey

  /** `t` holds the same collection as `s` under every key outside `written`. */
  predicate OnlyWrites(s: Store, t: Store, written: set<Key>)
  {
    && (LeadsKey !in written ==> t.leads == s.leads)
    && (ContactsKey !in written ==> t.contacts == s.contacts)
    && (DealsKey !in written ==> t.deals == s.deals)
    && (PropertiesKey !in written ==> t.properties == s.properties)
    && (CoursesKey !in written ==> t.courses == s.courses)
    && (TasksKey !in written ==> t.tasks == s.tasks)
    && (ActivitiesKey !in written ==> t.activities == s.activities)
  }

  /** The values a creation draws from its environment: the generated id and
      the two clock reads behind `createdAt` and `updatedAt`. */
  datatype Fresh = Fresh(id: Id, createdAt: Timestamp, updatedAt: Timestamp)

  /** The generated id and the clock read behind one activity-log entry. */
  datatype LogStamp = LogStamp(id: Id, createdAt: Timestamp)

  /** A `Partial<T>` update: each field is present (`Some`) or absent (`None`).
      An optional field of the record is `Option<Option<_>>` here, because the
      update may set it to `undefined`. `updatedAt` is left out, since the
      service overwrites it whatever the update says. */
  datatype Patch<P> = Patch(id: Option<Id>, userId: Option<UserId>, createdAt: Option<Timestamp>, body: P)

  datatype LeadPatch = LeadPatch(
    name: Option<string>, email: Option<string>, phone: Option<Option<string>>,
    company: Option<Option<string>>, position: Option<Option<string>>,
    source: Option<string>, status: Option<LeadStatus>,
    industry: Option<Option<string>>, notes: Option<Option<string>>)

  datatype ContactPatch = ContactPatch(
    name: Option<string>, email: Option<string>, phone: Option<Option<string>>,
    company: Option<Option<string>>, position: Option<Option<string>>,
    industry: Option<Option<string>>, notes: Option<Option<string>>,
    lastContactDate: Option<Option<Timestamp>>)

  datatype DealPatch = DealPatch(
    title: Option<string>, description: Option<Option<string>>, value: Option<Option<int>>,
    stage: Option<DealStage>, probability: Option<int>,
    expectedCloseDate: Option<Option<Timestamp>>, contactId: Option<Option<Id>>,
    leadId: Option<Option<Id>>)

  datatype TaskPatch = TaskPatch(
    title: Option<string>, description: Option<Option<string>>,
    dueDate: Option<Option<Timestamp>>, priority: Option<TaskPriority>,
    status: Option<TaskStatus>, relatedType: Option<Option<string>>,
    relatedId: Option<Option<Id>>)

  /** One field of an object spread: the update's value when present. */
  function Pick<T>(update: Option<T>, current: T): T
  {
    match update
    case Some(v) => v
    case None => current
  }

  function MergeLead(b: LeadBody, p: LeadPatch): LeadBody
  {
    LeadBody(
      Pick(p.name, b.name), Pick(p.email, b.email), Pick(p.phone, b.phone),
      Pick(p.company, b.company), Pick(p.position, b.position),
      Pick(p.source, b.source), Pick(p.status, b.status),
      Pick(p.industry, b.industry), Pick(p.notes, b.notes))
  }

  function MergeContact(b: ContactBody, p: ContactPatch): ContactBody
  {
    ContactBody(
      Pick(p.name, b.name), Pick(p.email, b.email), Pick(p.phone, b.phone),
      Pick(p.company, b.company), Pick(p.position, b.position),
      Pick(p.industry, b.industry), Pick(p.notes, b.notes),
      Pick(p.lastContactDate, b.lastContactDate))
  }

  function MergeDeal(b: DealBody, p: DealPatch): DealBody
  {
    DealBody(
      Pick(p.title, b.title), Pick(p.description, b.description),
      Pick(p.value, b.value), Pick(p.stage, b.stage),
      Pick(p.probability, b.probability),
      Pick(p.expectedCloseDate, b.expectedCloseDate),
      Pick(p.contactId, b.contactId), Pick(p.leadId, b.leadId))
  }

  function MergeTask(b: TaskBody, p: TaskPatch): TaskBody
  {
    TaskBody(
      Pick(p.title, b.title), Pick(p.description, b.description),
      Pick(p.dueDate, b.dueDate), Pick(p.priority, b.priority),
      Pick(p.status, b.status), Pick(p.relatedType, b.relatedType),
      Pick(p.relatedId, b.relatedId))
  }
}
