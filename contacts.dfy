/** The contacts page: the searchable user directory with its "All Users" /
    "Verified" tabs, and the current user's contact records, which the page
    creates and reloads through the remote `Contact` entity. */
module Contacts {
  import opened Wrappers
  import opened Seqs
  import opened Users

  datatype ContactStatus = Pending | Accepted

  /** A record of the remote `Contact` entity. */
  datatype ContactRecord = ContactRecord(userId: UserId, contactUserId: UserId, status: ContactStatus)

  /** The two tabs of the page. */
  datatype Tab = All | Verified

  /** The page's list (`getFilteredUsers`): everyone but the current user
      whose name matches the search, restricted to verified tiers on the
      "Verified" tab, in directory order. */
  function FilteredUsers(users: seq<User>, self: Option<User>, term: string, tab: Tab): (r: seq<User>)
    ensures forall u :: u in r <==>
      u in users && NotSelf(u, self) && MatchesSearch(u, term) && (tab == Verified ==> IsVerified(u))
    ensures IsSubsequence(r, users)
  {
    var keep := u => NotSelf(u, self) && MatchesSearch(u, term);
    var searched := Filter(users, keep);
    FilterIsSubsequence(users, keep);
    if tab == Verified then
      var both := u => keep(u) && IsVerified(u);
      FilterFilter(users, keep, IsVerified, both);
      FilterIsSubsequence(users, both);
      Filter(searched, IsVerified)
    else
      searched
  }

  /** A user with neither a user name nor a full name is never listed, not
      even for the empty search term, because `undefined` never matches. */
  lemma NamelessNeverListed(users: seq<User>, self: Option<User>, term: string, tab: Tab, u: User)
    requires u.username.None? && u.fullName.None?
    ensures u !in FilteredUsers(users, self, term, tab)
  {
  }

  /** `contacts.some(contact => contact.contact_user_id === userId)`. */
  function HasContact(contacts: seq<ContactRecord>, userId: UserId): (r: bool)
    ensures r <==> exists i :: 0 <= i < |contacts| && contacts[i].contactUserId == userId
  {
    if contacts == [] then false
    else contacts[0].contactUserId == userId || HasContact(contacts[1..], userId)
  }

  /** The records `Contact.filter({ user_id: selfId })` returns. */
  function OwnedRecords(records: seq<ContactRecord>, selfId: UserId): (r: seq<ContactRecord>)
    ensures forall c :: c in r <==> c in records && c.userId == selfId
    ensures IsSubsequence(r, records)
  {
    FilterIsSubsequence(records, (c: ContactRecord) => c.userId == selfId);
    Filter(records, (c: ContactRecord) => c.userId == selfId)
  }

  /** The record `addContact` creates: owned by the current user, pointing
      at the added user, and only pending. */
  function NewContact(selfId: UserId, userId: UserId): (c: ContactRecord)
    ensures c.userId == selfId && c.contactUserId == userId && c.status == Pending
  {
    ContactRecord(selfId, userId, Pending)
  }

  /** After the record is created and the owner's records are reloaded,
      the added user counts as a contact although the record is only
      pending. */
  lemma AddThenIsContact(records: seq<ContactRecord>, selfId: UserId, userId: UserId)
    ensures HasContact(OwnedRecords(records + [NewContact(selfId, userId)], selfId), userId)
  {
    var reloaded := OwnedRecords(records + [NewContact(selfId, userId)], selfId);
    assert NewContact(selfId, userId) in reloaded;
  }

  /** There is no duplicate check: adding the same user twice leaves two
      more identical records among the owner's reloaded ones. */
  lemma AddTwiceDuplicates(records: seq<ContactRecord>, selfId: UserId, userId: UserId)
    ensures var c := NewContact(selfId, userId);
      multiset(OwnedRecords(records + [c] + [c], selfId))[c] ==
      multiset(OwnedRecords(records, selfId))[c] + 2
  {
    var c := NewContact(selfId, userId);
    FilterCount(records + [c] + [c], (x: ContactRecord) => x.userId == selfId, c);
    FilterCount(records, (x: ContactRecord) => x.userId == selfId, c);
  }

  /** The remote `Contact` entity, as a list of records. `reachable` says
      whether its calls succeed; a failing call throws. */
  class ContactStore {
    var records: seq<ContactRecord>
    var reachable: bool

    constructor (records: seq<ContactRecord>, reachable: bool)
      ensures this.records == records && this.reachable == reachable
    {
      this.records := records;
      this.reachable := reachable;
    }

    /** `Contact.create(record)`. */
    method Create(c: ContactRecord) returns (ok: bool)
      modifies this`records
      ensures ok == reachable
      ensures records == if ok then old(records) + [c] else old(records)
    {
      ok := reachable;
      if ok {
        records := records + [c];
      }
    }

    /** `Contact.filter({ user_id: selfId })`. */
    method FilterByOwner(selfId: UserId) returns (ok: bool, found: seq<ContactRecord>)
      ensures ok == reachable
      ensures ok ==> found == OwnedRecords(records, selfId)
    {
      ok := reachable;
      found := if ok then OwnedRecords(records, selfId) else [];
    }
  }

  /** The page's state. */
  class ContactsPage {
    var users: seq<User>
    var contacts: seq<ContactRecord>
    var currentUser: Option<User>
    var searchTerm: string
    var showAddDialog: bool
    var selectedTab: Tab

    constructor ()
      ensures users == [] && contacts == [] && currentUser == None
      ensures searchTerm == "" && !showAddDialog && selectedTab == All
    {
      users := [];
      contacts := [];
      currentUser := None;
      searchTerm := "";
      showAddDialog := false;
      selectedTab := All;
    }

    /** `loadCurrentUser`: `me` is what `User.me()` returned, `None` when
        it threw (not logged in), which leaves the state as it was. */
    method LoadCurrentUser(me: Option<User>)
      modifies this`currentUser
      ensures currentUser == if me.Some? then me else old(currentUser)
    {
      if me.Some? {
        currentUser := me;
      }
    }

    /** `loadUsers`: `fetched` is what `User.list()` returned, `None` when
        it threw. */
    method LoadUsers(fetched: Option<seq<User>>)
      modifies this`users
      ensures users == if fetched.Some? then fetched.value else old(users)
    {
      if fetched.Some? {
        users := fetched.value;
      }
    }

    /** `loadContacts`: replaces the contact list by the current user's
        records; does nothing without a current user or when the fetch
        throws. */
    method LoadContacts(store: ContactStore)
      modifies this`contacts
      ensures currentUser.Some? && store.reachable ==>
        contacts == OwnedRecords(store.records, currentUser.value.id)
      ensures currentUser.None? || !store.reachable ==> contacts == old(contacts)
    {
      if currentUser.None? {
        return;
      }
      var ok, found := store.FilterByOwner(currentUser.value.id);
      if ok {
        contacts := found;
      }
    }

    /** `addContact`: without a current user nothing happens; otherwise one
        pending record is created, with no duplicate check, and the contact
        list is reloaded, after which the user counts as a contact. */
    method AddContact(store: ContactStore, userId: UserId)
      modifies this`contacts, store`records
      ensures currentUser.None? || !store.reachable ==>
        store.records == old(store.records) && contacts == old(contacts)
      ensures currentUser.Some? && store.reachable ==>
        && store.records == old(store.records) + [NewContact(currentUser.value.id, userId)]
        && contacts == OwnedRecords(store.records, currentUser.value.id)
        && IsContact(userId)
    {
      if currentUser.None? {
        return;
      }
      var ok := store.Create(NewContact(currentUser.value.id, userId));
      if ok {
        LoadContacts(store);
        AddThenIsContact(old(store.records), currentUser.value.id, userId);
      }
    }

    /** `getFilteredUsers()` on the page's state: the cards the page
        shows, in directory order. */
    function GetFilteredUsers(): (r: seq<User>)
      reads this
      ensures forall u :: u in r <==>
        && u in users && NotSelf(u, currentUser) && MatchesSearch(u, searchTerm)
        && (selectedTab == Verified ==> IsVerified(u))
      ensures IsSubsequence(r, users)
    {
      FilteredUsers(users, currentUser, searchTerm, selectedTab)
    }

    /** `isContact(userId)`: some loaded record names the user, whatever
        its status. */
    function IsContact(userId: UserId): (r: bool)
      reads this
      ensures r <==> exists i :: 0 <= i < |contacts| && contacts[i].contactUserId == userId
    {
      HasContact(contacts, userId)
    }

    /** The `users` the page hands to the add-contact dialog: the
        directory without the current user, in order. */
    function DialogUsers(): (r: seq<User>)
      reads this
      ensures forall u :: u in r <==> u in users && NotSelf(u, currentUser)
      ensures currentUser.Some? ==> forall u :: u in r ==> u.id != currentUser.value.id
      ensures IsSubsequence(r, users)
    {
      OtherUsers(users, currentUser)
    }
  }
}
