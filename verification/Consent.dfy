/** Consent decisions: which published template a service asks for, the two
    procedures that decide whether a client must sign it, and publishing new
    versions. Adding days to a date is a parameter, since it follows the local
    calendar. */
module Consent {
  import opened Wrappers

  type Id = nat

  datatype Frequency = FirstVisit | EveryVisit | UntilChanged

  datatype TemplateStatus = Draft | Published | Archived

  datatype Template = Template(id: Id, business: Id, services: set<Id>, version: nat, frequency: Frequency,
                               status: TemplateStatus, validityDays: nat, contentHash: Option<nat>)

  datatype RecordStatus = Signed | RevokedConsent | ExpiredConsent

  datatype Record = Record(client: Id, service: Id, template: Id, version: nat, appointment: Option<Id>,
                           signedAt: int, status: RecordStatus, expiresAt: Option<int>)

  datatype Db = Db(templates: seq<Template>, records: seq<Record>)

  datatype Appointment = Appointment(id: Id, service: Option<Id>, client: Id, business: Option<Id>)

  datatype Reason =
    | NoService
    | NoTemplate
    | AlreadySignedForAppointment
    | EveryVisitPolicy
    | FirstVisitNoConsent
    | FirstVisitAlreadySigned
    | NoExistingConsent
    | ValidityPeriodExpired
    | TemplateVersionChanged
    | TemplateContentChanged
    | ConsentRevokedOrExpired
    | ValidConsentExists

  datatype Decision = Decision(required: bool, reason: Reason)

  // ----------------------------------------------------------------- lookups

  predicate IsActiveFor(t: Template, service: Id, business: Option<Id>) {
    service in t.services && t.status == Published && (business.None? || t.business == business.value)
  }

  /** The published template of the highest version; of equals the first, where the
      database leaves it open. */
  function ActiveForService(ts: seq<Template>, service: Id, business: Option<Id>): (r: Option<Template>)
    ensures r.Some? ==> r.value in ts && IsActiveFor(r.value, service, business)
    ensures r.Some? ==> r.value.status == Published && service in r.value.services
                        && (business.None? || r.value.business == business.value)
    ensures forall t :: t in ts && t.status == Published && service in t.services
                        && (business.None? || t.business == business.value) ==>
              r.Some? && t.version <= r.value.version
  {
    if ts == [] then None
    else
      var rest := ActiveForService(ts[1..], service, business);
      if IsActiveFor(ts[0], service, business) && (rest.None? || rest.value.version <= ts[0].version) then Some(ts[0])
      else rest
  }

  predicate IsConsentOf(r: Record, client: Id, service: Id, template: Id) {
    r.client == client && r.service == service && r.template == template && r.status == Signed
  }

  /** The most recently signed consent; the first of equals. */
  function LatestConsent(rs: seq<Record>, client: Id, service: Id, template: Id): (r: Option<Record>)
    ensures r.Some? ==> r.value in rs && r.value.client == client && r.value.service == service
                        && r.value.template == template && r.value.status == Signed
    ensures forall x :: x in rs && x.client == client && x.service == service
                        && x.template == template && x.status == Signed ==>
              r.Some? && x.signedAt <= r.value.signedAt
  {
    if rs == [] then None
    else
      var rest := LatestConsent(rs[1..], client, service, template);
      if IsConsentOf(rs[0], client, service, template) && (rest.None? || rest.value.signedAt <= rs[0].signedAt)
      then Some(rs[0])
      else rest
  }

  predicate SignedForAppointment(rs: seq<Record>, appointment: Id, template: Id) {
    exists r | r in rs :: r.appointment == Some(appointment) && r.template == template && r.status == Signed
  }

  function FindVersion(ts: seq<Template>, id: Id, version: nat): (r: Option<Template>)
    ensures r.Some? ==> r.value in ts && r.value.id == id && r.value.version == version
  {
    if ts == [] then None
    else if ts[0].id == id && ts[0].version == version then Some(ts[0])
    else FindVersion(ts[1..], id, version)
  }

  predicate ValidityOver(t: Template, r: Record, at: int, addDays: (int, nat) -> int) {
    t.validityDays > 0 && at > addDays(r.signedAt, t.validityDays)
  }

  // ------------------------------------------------------ the two procedures

  /** The appointment check; the clock is read at the validity test and again at
      the expiry test. */
  function RequiresConsent(db: Db, a: Appointment, at: int, later: int, addDays: (int, nat) -> int): Decision {
    if a.service.None? then Decision(false, NoService)
    else
      var active := ActiveForService(db.templates, a.service.value, a.business);
      if active.None? then Decision(false, NoTemplate)
      else
        var t := active.value;
        if t.frequency == EveryVisit then
          if SignedForAppointment(db.records, a.id, t.id) then Decision(false, AlreadySignedForAppointment)
          else Decision(true, EveryVisitPolicy)
        else
          var existing := LatestConsent(db.records, a.client, a.service.value, t.id);
          if t.frequency == FirstVisit then
            if existing.None? then Decision(true, FirstVisitNoConsent) else Decision(false, FirstVisitAlreadySigned)
          else if existing.None? then Decision(true, NoExistingConsent)
          else
            var r := existing.value;
            if ValidityOver(t, r, at, addDays) then Decision(true, ValidityPeriodExpired)
            else if r.version != t.version then Decision(true, TemplateVersionChanged)
            else
              var previous := FindVersion(db.templates, r.template, r.version);
              if previous.Some? && previous.value.contentHash != t.contentHash
              then Decision(true, TemplateContentChanged)
              else if r.status != Signed || (r.expiresAt.Some? && r.expiresAt.value < later) then
                Decision(true, ConsentRevokedOrExpired)
              else Decision(false, ValidConsentExists)
  }

  /** The simplified client-facing check. */
  predicate IsConsentRequired(db: Db, service: Id, client: Id, business: Option<Id>, at: int,
                              addDays: (int, nat) -> int)
  {
    var active := ActiveForService(db.templates, service, business);
    if active.None? then false
    else if active.value.frequency == EveryVisit then true
    else
      var t, existing := active.value, LatestConsent(db.records, client, service, active.value.id);
      if existing.None? then true
      else if t.frequency == FirstVisit then false
      else ValidityOver(t, existing.value, at, addDays) || existing.value.version != t.version
  }

  ghost predicate UniqueIds(ts: seq<Template>) {
    forall i, j :: 0 <= i < j < |ts| ==> ts[i].id != ts[j].id
  }

  /** The content comparison never fires: the template looked up is the active
      one itself. */
  lemma ContentBranchNeverFires(db: Db, a: Appointment, at: int, later: int, addDays: (int, nat) -> int)
    requires UniqueIds(db.templates)
    ensures RequiresConsent(db, a, at, later, addDays).reason != TemplateContentChanged
  {
  }

  /** The client's latest consent is otherwise valid but past its own expiry. */
  predicate OnlyExpired(db: Db, t: Template, client: Id, service: Id, at: int, later: int, addDays: (int, nat) -> int) {
    var latest := LatestConsent(db.records, client, service, t.id);
    && latest.Some?
    && !ValidityOver(t, latest.value, at, addDays) && latest.value.version == t.version
    && latest.value.expiresAt.Some? && latest.value.expiresAt.value < later
  }

  /** How the simplified check compares with the full one. It asks for less exactly
      on an until-changed template whose latest consent has only expired, and for
      more exactly on an every-visit template signed for this appointment; without
      either, in particular when no record has an expiry, the two agree. */
  lemma SimplifiedCheckIsSafe(db: Db, a: Appointment, at: int, later: int, addDays: (int, nat) -> int)
    requires UniqueIds(db.templates) && a.service.Some?
    ensures var active := ActiveForService(db.templates, a.service.value, a.business);
            var simplified := IsConsentRequired(db, a.service.value, a.client, a.business, at, addDays);
            var full := RequiresConsent(db, a, at, later, addDays).required;
            && (full && !simplified <==>
                  && active.Some? && active.value.frequency == UntilChanged
                  && OnlyExpired(db, active.value, a.client, a.service.value, at, later, addDays))
            && (simplified && !full <==>
                  && active.Some? && active.value.frequency == EveryVisit
                  && SignedForAppointment(db.records, a.id, active.value.id))
            && ((forall r :: r in db.records ==> r.expiresAt.None?) ==> simplified || !full)
  {
  }

  /** When the full check demands a signature, in the fields of the active template,
      the appointment and the client's latest signed consent. */
  lemma ConsentIsRequiredExactlyWhen(db: Db, a: Appointment, at: int, later: int, addDays: (int, nat) -> int)
    requires UniqueIds(db.templates)
    ensures var required := RequiresConsent(db, a, at, later, addDays).required;
            if a.service.None? || ActiveForService(db.templates, a.service.value, a.business).None? then !required
            else
              var t := ActiveForService(db.templates, a.service.value, a.business).value;
              var latest := LatestConsent(db.records, a.client, a.service.value, t.id);
              match t.frequency
              case EveryVisit =>
                required <==> !exists r :: r in db.records && r.appointment == Some(a.id) && r.template == t.id
                                           && r.status == Signed
              case FirstVisit => required <==> latest.None?
              case UntilChanged =>
                required <==>
                  || latest.None?
                  || (t.validityDays > 0 && addDays(latest.value.signedAt, t.validityDays) < at)
                  || latest.value.version != t.version
                  || (latest.value.expiresAt.Some? && latest.value.expiresAt.value < later)
  {
  }

  // ---------------------------------------------------------- new versions

  function IndexOf(ts: seq<Template>, id: Id): (i: nat)
    ensures i <= |ts|
    ensures i < |ts| ==> ts[i].id == id
    ensures forall k :: 0 <= k < i ==> ts[k].id != id
  {
    if ts == [] || ts[0].id == id then 0 else 1 + IndexOf(ts[1..], id)
  }

  function PublishedTemplate(t: Template, hash: nat): Template {
    t.(status := Published, contentHash := Some(hash))
  }

  function NextVersion(t: Template, id: Id): Template {
    Template(id, t.business, t.services, t.version + 1, t.frequency, Draft, 0, None)
  }

  lemma ActiveIsTheHighest(ts: seq<Template>, t: Template, service: Id, business: Option<Id>)
    requires UniqueIds(ts) && t in ts && IsActiveFor(t, service, business)
    requires forall s :: s in ts && IsActiveFor(s, service, business) && s.id != t.id ==> s.version < t.version
    ensures ActiveForService(ts, service, business) == Some(t)
  {
  }

  /** Publishing a draft nobody has signed, as the highest version for a service,
      makes both checks demand a signature from every client. */
  lemma PublishingForcesResigning(db: Db, i: nat, hash: nat, a: Appointment, at: int, later: int,
                                  addDays: (int, nat) -> int)
    requires UniqueIds(db.templates) && i < |db.templates| && db.templates[i].status == Draft
    requires a.service.Some? && a.service.value in db.templates[i].services
    requires a.business.None? || a.business.value == db.templates[i].business
    requires forall r :: r in db.records ==> r.template != db.templates[i].id
    requires forall s :: s in db.templates && IsActiveFor(s, a.service.value, a.business) ==>
               s.version < db.templates[i].version
    ensures var after := db.(templates := db.templates[i := PublishedTemplate(db.templates[i], hash)]);
            && RequiresConsent(after, a, at, later, addDays).required
            && IsConsentRequired(after, a.service.value, a.client, a.business, at, addDays)
  {
    var t := PublishedTemplate(db.templates[i], hash);
    var ts := db.templates[i := t];
    assert ts[i] == t;
    forall s | s in ts && s.id != t.id ensures s in db.templates {
    }
    ActiveIsTheHighest(ts, t, a.service.value, a.business);
    assert LatestConsent(db.records, a.client, a.service.value, t.id).None?;
  }

  /** In particular a new version of the active template, once published. */
  lemma NewVersionForcesResigning(db: Db, newId: Id, hash: nat, a: Appointment, at: int, later: int,
                                  addDays: (int, nat) -> int)
    requires UniqueIds(db.templates) && a.service.Some?
    requires ActiveForService(db.templates, a.service.value, a.business).Some?
    requires (forall t :: t in db.templates ==> t.id != newId) && forall r :: r in db.records ==> r.template != newId
    ensures var active := ActiveForService(db.templates, a.service.value, a.business).value;
            var after := db.(templates := db.templates + [PublishedTemplate(NextVersion(active, newId), hash)]);
            && RequiresConsent(after, a, at, later, addDays).required
            && IsConsentRequired(after, a.service.value, a.client, a.business, at, addDays)
  {
    var active := ActiveForService(db.templates, a.service.value, a.business).value;
    var draft := NextVersion(active, newId);
    var n := |db.templates|;
    var drafted := db.(templates := db.templates + [draft]);
    assert drafted.templates[n] == draft;
    assert drafted.templates[n := PublishedTemplate(draft, hash)] == db.templates + [PublishedTemplate(draft, hash)];
    PublishingForcesResigning(drafted, n, hash, a, at, later, addDays);
  }

  /** The templates collection, as publishing, archiving and versioning change
      it. */
  class TemplateCollection {
    var templates: seq<Template>

    constructor (templates: seq<Template>)
      ensures this.templates == templates
    {
      this.templates := templates;
    }

    method Publish(id: Id, hash: nat) returns (ok: bool)
      modifies this
      ensures var i := IndexOf(old(templates), id);
              && (ok <==> i < |old(templates)| && old(templates)[i].status == Draft)
              && (ok ==> |templates| == |old(templates)| && templates[i].status == Published
                         && templates[i].contentHash == Some(hash) && templates[i].version == old(templates)[i].version
                         && templates[i].id == id)
              && templates ==
                   if ok then old(templates)[i := PublishedTemplate(old(templates)[i], hash)] else old(templates)
    {
      var i := IndexOf(templates, id);
      if i == |templates| || templates[i].status != Draft {
        return false;
      }
      var template := templates[i];
      template := template.(contentHash := Some(hash));
      template := template.(status := Published);
      templates := templates[i := template];
      ok := true;
    }

    method Archive(id: Id)
      modifies this
      ensures var i := IndexOf(old(templates), id);
              templates ==
                if i < |old(templates)| then old(templates)[i := old(templates)[i].(status := Archived)]
                else old(templates)
    {
      var i := IndexOf(templates, id);
      if i < |templates| {
        templates := templates[i := templates[i].(status := Archived)];
      }
    }

    method CreateNewVersion(id: Id, newId: Id) returns (made: Option<Template>)
      modifies this
      ensures var i := IndexOf(old(templates), id);
              && made == (if i < |old(templates)| then Some(NextVersion(old(templates)[i], newId)) else None)
              && (made.Some? ==>
                    var t := old(templates)[i];
                    && made.value.version == t.version + 1 && made.value.status == Draft && made.value.id == newId
                    && made.value.services == t.services && made.value.frequency == t.frequency
                    && made.value.business == t.business && made.value.validityDays == 0)
              && templates == if made.Some? then old(templates) + [made.value] else old(templates)
    {
      var i := IndexOf(templates, id);
      if i == |templates| {
        return None;
      }
      var newVersion := NextVersion(templates[i], newId);
      templates := templates + [newVersion];
      made := Some(newVersion);
    }
  }
}
