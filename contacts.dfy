/**
 * controllers/contactController.js: the contact handlers, all run behind the
 * token gate with the caller's id taken from `req.user.id`. The Contact
 * collection is held as a map from id to document.
 */
module Contacts {
  import opened Wrappers
  import opened Domain
  import opened Http
  import opened JsString

  const FieldsMandatory := "All fields are mansatory !"
  const DuplicateContact := "Contact with this email or phone already exists."
  const CreatedMessage := "Contact created successfully!"
  const NoContacts := "No contacts found."
  const RetrievedAll := "Contacts retrieved successfully!"
  const ContactNotFound := "Contact not found"
  const AccessDenied := "Access denied. You do not own this contact."
  const RetrievedOne := "Contact retrieved successfully!"
  const NothingToUpdate := "At least one field (name, email, or phone) must be provided for update."
  const NoUpdatePermission := "You do not have permission to update this contact."
  const UpdatedMessage := "Contact updated successfully!"
  const DeleteNotFound := "Coontact not found"
  const NoDeletePermission := "User don't have permission to update other user contacts"
  const NoSearchTerm := "Please provide a search term"
  const NoIds := "No contacts provided for deletion"

  /** `Contact.find({user_id: owner})` */
  function OwnedBy(contacts: map<ContactId, Contact>, owner: UserId): map<ContactId, Contact>
  {
    map id | id in contacts && contacts[id].owner == owner :: contacts[id]
  }

  /** `Contact.countDocuments({user_id: owner})` */
  function CountOwned(contacts: map<ContactId, Contact>, owner: UserId): nat
  {
    |OwnedBy(contacts, owner)|
  }

  /** `Contact.findOne({$or: [{email}, {phone}], user_id: owner})` finds a document. */
  predicate Duplicate(contacts: map<ContactId, Contact>, owner: UserId, email: string, phone: string)
  {
    exists id :: id in contacts && contacts[id].owner == owner
                 && (contacts[id].email == email || contacts[id].phone == phone)
  }

  /** No owner has two contacts sharing an email or a phone. */
  predicate DistinctPerOwner(contacts: map<ContactId, Contact>)
  {
    forall a, b :: a in contacts && b in contacts && a != b && contacts[a].owner == contacts[b].owner ==>
      contacts[a].email != contacts[b].email && contacts[a].phone != contacts[b].phone
  }

  /** The fields of `req.body` that the Contact schema keeps; an absent field is not written. */
  datatype ContactPatch = ContactPatch(name: Option<string>, email: Option<string>, phone: Option<string>,
                                       userId: Option<UserId>)

  /** `findByIdAndUpdate(id, req.body)`: every field the body holds is written, `user_id` included. */
  function ApplyPatch(contact: Contact, patch: ContactPatch): Contact
  {
    Contact(if patch.userId.Some? then patch.userId.value else contact.owner,
            if patch.name.Some? then patch.name.value else contact.name,
            if patch.email.Some? then patch.email.value else contact.email,
            if patch.phone.Some? then patch.phone.value else contact.phone)
  }

  /** One entry of the search query's `$or` array: a case-insensitive regex on one field. */
  datatype Clause =
    | NameMatches(pattern: string)
    | EmailMatches(pattern: string)
    | PhoneMatches(pattern: string)

  /** `{user_id, $or: [...]}` */
  datatype SearchQuery = SearchQuery(userId: UserId, or: seq<Clause>)

  /** The order in which searchContacts pushes the clauses. */
  function Rank(clause: Clause): nat
  {
    match clause
    case NameMatches(_) => 0
    case EmailMatches(_) => 1
    case PhoneMatches(_) => 2
  }

  /** A clause holds of a contact; `matches(pattern, value)` stands for the regex test. */
  predicate ClauseHolds(clause: Clause, contact: Contact, matches: (string, string) -> bool)
  {
    match clause
    case NameMatches(p) => matches(p, contact.name)
    case EmailMatches(p) => matches(p, contact.email)
    case PhoneMatches(p) => matches(p, contact.phone)
  }

  /** What `Contact.find(query)` selects. */
  predicate QueryHolds(query: SearchQuery, contact: Contact, matches: (string, string) -> bool)
  {
    contact.owner == query.userId && exists i :: 0 <= i < |query.or| && ClauseHolds(query.or[i], contact, matches)
  }

  /**
   * The contacts a search on these terms is meant to find, stated without
   * the query: the caller's, with some provided term matching its field.
   */
  predicate SearchHit(caller: UserId, name: Option<string>, email: Option<string>, phone: Option<string>,
                      contact: Contact, matches: (string, string) -> bool)
  {
    && contact.owner == caller
    && ((Truthy(name) && matches(name.value, contact.name))
        || (Truthy(email) && matches(email.value, contact.email))
        || (Truthy(phone) && matches(phone.value, contact.phone)))
  }

  /** `Contact.deleteMany({_id: {$in: ids}, user_id: owner})` removes these. */
  function BulkTargets(contacts: map<ContactId, Contact>, owner: UserId, ids: seq<ContactId>): set<ContactId>
  {
    set id | id in contacts && id in ids && contacts[id].owner == owner
  }

  class ContactController {
    /** The Contact collection. */
    var contacts: map<ContactId, Contact>

    constructor ()
      ensures contacts == map[]
    {
      contacts := map[];
    }

    /** `getContacts`: exactly the caller's contacts, or 404 when there are none. */
    method GetContacts(caller: UserId) returns (resp: Response)
      ensures resp.Json?
      ensures resp.status == 404 <==> forall id :: id in contacts ==> contacts[id].owner != caller
      ensures resp.status == 404 ==> resp == Json(404, Some(NoContacts), NoPayload)
      ensures resp.status != 404 ==>
                && resp.status == 200 && resp.message == Some(RetrievedAll) && resp.payload.ContactList?
                && forall id :: id in resp.payload.contacts <==> id in contacts && contacts[id].owner == caller
      ensures resp.payload.ContactList? ==>
                forall id :: id in resp.payload.contacts ==> resp.payload.contacts[id] == contacts[id]
    {
      var owned := OwnedBy(contacts, caller);
      NoneOwnedIffZero(contacts, caller);
      if |owned| == 0 {
        return Json(404, Some(NoContacts), NoPayload);
      }
      resp := Json(200, Some(RetrievedAll), ContactList(owned));
    }

    /**
     * `createContact`: 400 with nothing added when a field is missing or one
     * of the caller's contacts has the same email or phone; otherwise exactly
     * one contact, owned by the caller, is added.
     */
    method CreateContact(caller: UserId, name: Option<string>, email: Option<string>, phone: Option<string>,
                         newId: ContactId) returns (resp: Response)
      requires newId !in contacts
      modifies this
      ensures !(Truthy(name) && Truthy(email) && Truthy(phone)) ==>
                resp == Raised(400, FieldsMandatory) && contacts == old(contacts)
      ensures Truthy(name) && Truthy(email) && Truthy(phone) && Duplicate(old(contacts), caller, email.value, phone.value) ==>
                resp == Json(400, Some(DuplicateContact), NoPayload) && contacts == old(contacts)
      ensures Truthy(name) && Truthy(email) && Truthy(phone) && !Duplicate(old(contacts), caller, email.value, phone.value) ==>
                var added := Contact(caller, name.value, email.value, phone.value);
                && contacts == old(contacts)[newId := added]
                && resp == Json(201, Some(CreatedMessage), OneContact(newId, added))
      ensures DistinctPerOwner(old(contacts)) ==> DistinctPerOwner(contacts)
    {
      if !Truthy(name) || !Truthy(email) || !Truthy(phone) {
        return Raised(400, FieldsMandatory);
      }
      if Duplicate(contacts, caller, email.value, phone.value) {
        return Json(400, Some(DuplicateContact), NoPayload);
      }
      var added := Contact(caller, name.value, email.value, phone.value);
      CreateKeepsDistinct(contacts, newId, added);
      contacts := contacts[newId := added];
      resp := Json(201, Some(CreatedMessage), OneContact(newId, added));
    }

    /** `getContact`: 404 for an unknown id, then 403 for another owner's contact. */
    method GetContact(caller: UserId, id: ContactId) returns (resp: Response)
      ensures id !in contacts ==> resp == Raised(404, ContactNotFound)
      ensures id in contacts && contacts[id].owner != caller ==> resp == Json(403, Some(AccessDenied), NoPayload)
      ensures id in contacts && contacts[id].owner == caller ==>
                resp == Json(200, Some(RetrievedOne), OneContact(id, contacts[id]))
    {
      if id !in contacts {
        return Raised(404, ContactNotFound);
      }
      if contacts[id].owner != caller {
        return Json(403, Some(AccessDenied), NoPayload);
      }
      resp := Json(200, Some(RetrievedOne), OneContact(id, contacts[id]));
    }

    /**
     * `updateContact`: 400 before any lookup when name, email and phone are
     * all falsy; then 404, then 403; otherwise the body is written over the
     * stored contact, `user_id` included when the body carries one.
     */
    method UpdateContact(caller: UserId, id: ContactId, patch: ContactPatch) returns (resp: Response)
      modifies this
      ensures !Truthy(patch.name) && !Truthy(patch.email) && !Truthy(patch.phone) ==>
                resp == Json(400, Some(NothingToUpdate), NoPayload) && contacts == old(contacts)
      ensures (Truthy(patch.name) || Truthy(patch.email) || Truthy(patch.phone)) && id !in old(contacts) ==>
                resp == Json(404, Some(ContactNotFound), NoPayload) && contacts == old(contacts)
      ensures (Truthy(patch.name) || Truthy(patch.email) || Truthy(patch.phone)) && id in old(contacts)
              && old(contacts)[id].owner != caller ==>
                resp == Json(403, Some(NoUpdatePermission), NoPayload) && contacts == old(contacts)
      ensures (Truthy(patch.name) || Truthy(patch.email) || Truthy(patch.phone)) && id in old(contacts)
              && old(contacts)[id].owner == caller ==>
                var updated := ApplyPatch(old(contacts)[id], patch);
                && contacts == old(contacts)[id := updated]
                && resp == Json(200, Some(UpdatedMessage), OneContact(id, updated))
    {
      if !Truthy(patch.name) && !Truthy(patch.email) && !Truthy(patch.phone) {
        return Json(400, Some(NothingToUpdate), NoPayload);
      }
      if id !in contacts {
        return Json(404, Some(ContactNotFound), NoPayload);
      }
      if contacts[id].owner != caller {
        return Json(403, Some(NoUpdatePermission), NoPayload);
      }
      var updated := ApplyPatch(contacts[id], patch);
      contacts := contacts[id := updated];
      resp := Json(200, Some(UpdatedMessage), OneContact(id, updated));
    }

    /** `deleteContact`: 404, then 403; otherwise exactly that id is removed. */
    method DeleteContact(caller: UserId, id: ContactId) returns (resp: Response)
      modifies this
      ensures id !in old(contacts) ==> resp == Raised(404, DeleteNotFound) && contacts == old(contacts)
      ensures id in old(contacts) && old(contacts)[id].owner != caller ==>
                resp == Raised(403, NoDeletePermission) && contacts == old(contacts)
      ensures id in old(contacts) && old(contacts)[id].owner == caller ==>
                && contacts == old(contacts) - {id}
                && resp == Json(200, Some("Deleted contact with id: " + id), NoPayload)
    {
      if id !in contacts {
        return Raised(404, DeleteNotFound);
      }
      if contacts[id].owner != caller {
        return Raised(403, NoDeletePermission);
      }
      contacts := contacts - {id};
      resp := Json(200, Some("Deleted contact with id: " + id), NoPayload);
    }

    /**
     * The query searchContacts builds by pushing onto `$or`: scoped to the
     * caller, one clause per truthy term, in the order name, email, phone.
     */
    static method BuildSearchQuery(caller: UserId, name: Option<string>, email: Option<string>,
                                   phone: Option<string>) returns (query: SearchQuery)
      ensures query.userId == caller
      ensures forall clause :: clause in query.or <==>
                || (Truthy(name) && clause == NameMatches(name.value))
                || (Truthy(email) && clause == EmailMatches(email.value))
                || (Truthy(phone) && clause == PhoneMatches(phone.value))
      ensures forall i, j :: 0 <= i < j < |query.or| ==> Rank(query.or[i]) < Rank(query.or[j])
      ensures |query.or| == 0 <==> !Truthy(name) && !Truthy(email) && !Truthy(phone)
    {
      query := SearchQuery(caller, []);
      if Truthy(name) {
        query := query.(or := query.or + [NameMatches(name.value)]);
      }
      if Truthy(email) {
        query := query.(or := query.or + [EmailMatches(email.value)]);
      }
      if Truthy(phone) {
        query := query.(or := query.or + [PhoneMatches(phone.value)]);
      }
    }

    /**
     * `searchContacts`: 400 when no term is given; otherwise exactly the
     * caller's contacts that some given term matches.
     */
    method SearchContacts(caller: UserId, name: Option<string>, email: Option<string>, phone: Option<string>,
                          matches: (string, string) -> bool) returns (resp: Response)
      ensures !Truthy(name) && !Truthy(email) && !Truthy(phone) ==>
                resp == Json(400, Some(NoSearchTerm), NoPayload)
      ensures Truthy(name) || Truthy(email) || Truthy(phone) ==>
                && resp.Json? && resp.status == 200 && resp.message == None && resp.payload.ContactList?
                && (forall id :: id in resp.payload.contacts <==>
                       id in contacts && SearchHit(caller, name, email, phone, contacts[id], matches))
                && (forall id :: id in resp.payload.contacts ==> resp.payload.contacts[id] == contacts[id])
    {
      var query := BuildSearchQuery(caller, name, email, phone);
      if |query.or| == 0 {
        return Json(400, Some(NoSearchTerm), NoPayload);
      }
      var found := map id | id in contacts && QueryHolds(query, contacts[id], matches) :: contacts[id];
      forall id | id in contacts
        ensures QueryHolds(query, contacts[id], matches) <==> SearchHit(caller, name, email, phone, contacts[id], matches)
      {
        QueryMeansHit(query, caller, name, email, phone, contacts[id], matches);
      }
      resp := Json(200, None, ContactList(found));
    }

    /** `getContactCount`: the number of the caller's contacts, zero exactly when getContacts answers 404. */
    method GetContactCount(caller: UserId) returns (resp: Response)
      ensures resp == Json(200, None, Total(|OwnedBy(contacts, caller)|))
      ensures resp.payload.count == 0 <==> forall id :: id in contacts ==> contacts[id].owner != caller
    {
      var count := |OwnedBy(contacts, caller)|;
      NoneOwnedIffZero(contacts, caller);
      resp := Json(200, None, Total(count));
    }

    /**
     * `bulkDeleteContacts`: 400 unless `ids` is a non-empty array; otherwise
     * exactly the listed contacts the caller owns are removed and the
     * message reports how many.
     */
    method BulkDeleteContacts(caller: UserId, ids: Option<seq<ContactId>>) returns (resp: Response)
      modifies this
      ensures ids.None? || ids.value == [] ==> resp == Raised(400, NoIds) && contacts == old(contacts)
      ensures ids.Some? && ids.value != [] ==>
                && contacts == old(contacts) - BulkTargets(old(contacts), caller, ids.value)
                && resp == Json(200, Some("Deleted " + DecimalString(|old(contacts)| - |contacts|) + " contacts"),
                                NoPayload)
    {
      if ids.None? || |ids.value| == 0 {
        return Raised(400, NoIds);
      }
      var removed := set id | id in contacts && id in ids.value && contacts[id].owner == caller;
      RemoveKeysSize(contacts, removed);
      contacts := contacts - removed;
      resp := Json(200, Some("Deleted " + DecimalString(|removed|) + " contacts"), NoPayload);
    }
  }

  /** The query built from the terms selects exactly the intended hits. */
  lemma {:induction false} QueryMeansHit(query: SearchQuery, caller: UserId, name: Option<string>,
                                         email: Option<string>, phone: Option<string>, contact: Contact,
                                         matches: (string, string) -> bool)
    requires query.userId == caller
    requires forall clause :: clause in query.or <==>
               || (Truthy(name) && clause == NameMatches(name.value))
               || (Truthy(email) && clause == EmailMatches(email.value))
               || (Truthy(phone) && clause == PhoneMatches(phone.value))
    ensures QueryHolds(query, contact, matches) <==> SearchHit(caller, name, email, phone, contact, matches)
  {
    if SearchHit(caller, name, email, phone, contact, matches) {
      var clause :=
        if Truthy(name) && matches(name.value, contact.name) then NameMatches(name.value)
        else if Truthy(email) && matches(email.value, contact.email) then EmailMatches(email.value)
        else PhoneMatches(phone.value);
      assert clause in query.or;
      var i :| 0 <= i < |query.or| && query.or[i] == clause;
      assert ClauseHolds(query.or[i], contact, matches);
    }
    if QueryHolds(query, contact, matches) {
      var i :| 0 <= i < |query.or| && ClauseHolds(query.or[i], contact, matches);
      assert query.or[i] in query.or;
    }
  }

  /** An owner's count is zero exactly when no contact belongs to them. */
  lemma {:induction false} NoneOwnedIffZero(contacts: map<ContactId, Contact>, owner: UserId)
    ensures CountOwned(contacts, owner) == 0 <==> forall id :: id in contacts ==> contacts[id].owner != owner
  {
    if CountOwned(contacts, owner) == 0 {
      forall id | id in contacts ensures contacts[id].owner != owner {
        assert id !in OwnedBy(contacts, owner);
      }
    } else {
      var some :| some in OwnedBy(contacts, owner);
      assert some in contacts && contacts[some].owner == owner;
    }
  }

  /** Removing keys that are present shrinks a map by exactly their number. */
  lemma {:induction false} RemoveKeysSize(contacts: map<ContactId, Contact>, ids: set<ContactId>)
    requires ids <= contacts.Keys
    ensures |contacts - ids| == |contacts| - |ids|
    decreases |ids|
  {
    if ids != {} {
      var id :| id in ids;
      var smaller := contacts - {id};
      assert smaller.Keys == contacts.Keys - {id};
      assert |smaller.Keys| == |contacts.Keys| - 1;
      RemoveKeysSize(smaller, ids - {id});
      assert smaller - (ids - {id}) == contacts - ids;
    }
  }

  /** Creating a contact adds one to its owner's count and leaves every other owner's count alone. */
  lemma {:induction false} CountAfterCreate(contacts: map<ContactId, Contact>, id: ContactId, added: Contact,
                                            owner: UserId)
    requires id !in contacts
    ensures CountOwned(contacts[id := added], owner) ==
            CountOwned(contacts, owner) + (if owner == added.owner then 1 else 0)
  {
    if owner == added.owner {
      assert OwnedBy(contacts[id := added], owner) == OwnedBy(contacts, owner)[id := added];
    } else {
      assert OwnedBy(contacts[id := added], owner) == OwnedBy(contacts, owner);
    }
  }

  /** Deleting a contact takes one from its owner's count and leaves every other owner's count alone. */
  lemma {:induction false} CountAfterDelete(contacts: map<ContactId, Contact>, id: ContactId, owner: UserId)
    requires id in contacts
    ensures CountOwned(contacts - {id}, owner) ==
            CountOwned(contacts, owner) - (if owner == contacts[id].owner then 1 else 0)
  {
    if owner == contacts[id].owner {
      assert OwnedBy(contacts - {id}, owner) == OwnedBy(contacts, owner) - {id};
      RemoveKeysSize(OwnedBy(contacts, owner), {id});
    } else {
      assert OwnedBy(contacts - {id}, owner) == OwnedBy(contacts, owner);
    }
  }

  /**
   * Bulk delete is scoped to the caller: the caller's count drops by the
   * number removed, and every other owner keeps all of their contacts.
   */
  lemma {:induction false} BulkDeleteScoped(contacts: map<ContactId, Contact>, caller: UserId, ids: seq<ContactId>,
                                            other: UserId)
    requires other != caller
    ensures CountOwned(contacts - BulkTargets(contacts, caller, ids), caller) ==
            CountOwned(contacts, caller) - |BulkTargets(contacts, caller, ids)|
    ensures OwnedBy(contacts - BulkTargets(contacts, caller, ids), other) == OwnedBy(contacts, other)
  {
    var targets := BulkTargets(contacts, caller, ids);
    var owned := OwnedBy(contacts, caller);
    var after := contacts - targets;
    assert OwnedBy(after, caller) == owned - targets by {
      forall id ensures id in OwnedBy(after, caller) <==> id in owned - targets {
      }
    }
    assert targets <= owned.Keys;
    RemoveKeysSize(owned, targets);
    assert OwnedBy(after, other) == OwnedBy(contacts, other) by {
      forall id ensures id in OwnedBy(after, other) <==> id in OwnedBy(contacts, other) {
      }
    }
  }

  /** createContact's duplicate check keeps every owner's emails and phones distinct. */
  lemma {:induction false} CreateKeepsDistinct(contacts: map<ContactId, Contact>, id: ContactId, added: Contact)
    requires id !in contacts
    requires !Duplicate(contacts, added.owner, added.email, added.phone)
    ensures DistinctPerOwner(contacts) ==> DistinctPerOwner(contacts[id := added])
  {
  }

  /**
   * updateContact has no such check: in any store, patching one contact's
   * email to that of another contact of the same owner breaks the
   * per-owner distinctness.
   */
  lemma UpdateMayDuplicate(contacts: map<ContactId, Contact>, a: ContactId, b: ContactId)
    requires a in contacts && b in contacts && a != b
    requires contacts[a].owner == contacts[b].owner
    ensures var patch := ContactPatch(None, Some(contacts[a].email), None, None);
      !DistinctPerOwner(contacts[b := ApplyPatch(contacts[b], patch)])
  {
    var after := contacts[b := ApplyPatch(contacts[b], ContactPatch(None, Some(contacts[a].email), None, None))];
    assert after[a].email == after[b].email;
  }
}
