/** The add-contact dialog: it searches the users the contacts page hands
    it (everyone but the current user) and offers an Add action on every
    listed user. */
module AddContactDialog {
  import opened Seqs
  import opened Users
  import opened Contacts

  /** The dialog's list for search term `term`: its `filteredUsers` over
      the users the contacts page passes in. It does not consult the contact
      records: a user who is already a contact is offered Add again. */
  function OfferedUsers(page: ContactsPage, term: string): (r: seq<User>)
    reads page
    ensures forall u :: u in r <==>
      u in page.users && NotSelf(u, page.currentUser) && MatchesSearch(u, term)
    ensures IsSubsequence(r, page.users)
  {
    var others := page.DialogUsers();
    SubsequenceTransitive(SearchFilter(others, term), others, page.users);
    SearchFilter(others, term)
  }

  /** The current user is never offered. */
  lemma SelfNeverOffered(page: ContactsPage, term: string, u: User)
    requires page.currentUser.Some?
    requires u in OfferedUsers(page, term)
    ensures u.id != page.currentUser.value.id
  {
  }

  /** `handleAddContact(userId)`: runs the page's `addContact`, then closes
      the dialog. */
  method HandleAddContact(page: ContactsPage, store: ContactStore, userId: UserId)
    modifies page`contacts, page`showAddDialog, store`records
    ensures !page.showAddDialog
    ensures page.currentUser.None? || !store.reachable ==>
      store.records == old(store.records) && page.contacts == old(page.contacts)
    ensures page.currentUser.Some? && store.reachable ==>
      && store.records == old(store.records) + [NewContact(page.currentUser.value.id, userId)]
      && page.contacts == OwnedRecords(store.records, page.currentUser.value.id)
      && page.IsContact(userId)
  {
    page.AddContact(store, userId);
    page.showAddDialog := false;
  }
}
