# Boomfare messenger client: selection, validation and state-update rules

This project models, in Dafny, the logic inside the React client of the
Boomfare direct-messaging app (the `frontend/src` pages and dialogs):

- the user directory search shared by the contacts page, the chat list and
  the add-contact dialog: case-insensitive substring match on `username` or
  `full_name`, exclusion of the current user, the "Verified" tab;
- the contact list: `isContact`, and `addContact` creating a `pending`
  record and then reloading the current user's records;
- the conversation: the sender/recipient pair filter of `loadMessages`, the
  trim-based guard and the record built by `sendMessage`, the
  clear-then-reload sequence, and the Enter-key rule;
- the chat list's presentation fallbacks (avatar initial, title, subtitle,
  verification badge, highlighted row);
- the profile page's edit data seeding, the single-field update of the
  editor, and the `saveProfile` state machine.

Pure rules are functions with lemmas. The pages' React state is modelled as
classes (`ContactsPage`, `ChatsPage`, `ProfilePage`) whose methods update
their fields in the order the source does. The remote entities
(`Contact`, `Message`) are classes holding a sequence of records: a create
appends, a filter selects. Their `reachable` flag says whether their calls
succeed or throw. The results of `User.me()`, `User.list()` and
`User.updateMyUserData` are passed in as parameters.

Files: `wrappers.dfy` (Option), `text.dfy` (case mapping, `includes`,
`trim`), `seqs.dfy` (`filter` and subsequences), `users.dfy`,
`contacts.dfy`, `chats.dfy`, `chat_list.dfy`, `add_contact_dialog.dfy`,
`profile_editor.dfy`, `profile.dfy`.

The code does not sort, deduplicate or mark messages read.
It only asks the remote store to sort by `created_date`
(frontend/src/pages/chats.jsx:64) and displays the `is_read` flag. Re-adding
a contact creates a second record rather than failing or being ignored.
Contact status never gates messaging.

## Model

| member | source | states |
|---|---|---|
| Text.Lower | frontend/src/pages/contacts.jsx:69-70 | `toLowerCase` keeps the length and maps every character through the (ASCII) lower-case map |
| Text.LowerIdempotent | frontend/src/components/chat/ChatList.jsx:25-26 | lower-casing an already lower-cased string changes nothing |
| Text.IncludesCorrect | frontend/src/pages/contacts.jsx:69-70 | the `includes` scan is true exactly when the term occurs at some position of the string (both directions) |
| Text.Includes | frontend/src/pages/contacts.jsx:69-70 | a true `includes` means the term is no longer than the string, and the empty term is included in every string |
| Text.TrimStart | frontend/src/pages/chats.jsx:70 | the result is a suffix of the input; everything dropped is white space; what is left does not start with white space |
| Text.TrimEnd | frontend/src/pages/chats.jsx:70 | the result is a prefix of the input; everything dropped is white space; what is left does not end with white space |
| Text.Trim | frontend/src/pages/chats.jsx:70 | `trim` never lengthens the input, and a non-empty result neither starts nor ends with white space |
| Text.TrimEmptyIffBlank | frontend/src/pages/chats.jsx:70 | `input.trim()` is empty exactly when every character of the input is white space (the same rule gates the send button in MessageInput.jsx) |
| Seqs.Filter | frontend/src/pages/contacts.jsx:67-71 | `filter` never grows the list and keeps exactly the entries that pass |
| Seqs.FilterIsSubsequence | frontend/src/pages/contacts.jsx:67-79 | a filtered list is a subsequence of its input: entries are only removed, never reordered |
| Seqs.FilterCount | frontend/src/pages/chats.jsx:59-66 | filtering keeps each passing entry exactly as often as it occurs and drops every failing one |
| Seqs.FilterAgree | frontend/src/pages/chats.jsx:60-63 | filtering with two predicates that agree on every entry gives the same list |
| Seqs.FilterAll | frontend/src/pages/chats.jsx:88-90 | filtering with a predicate every entry passes returns the list unchanged |
| Seqs.FilterFilter | frontend/src/pages/contacts.jsx:73-77 | filtering the filtered list again equals one filter by both predicates |
| Seqs.SubsequenceTransitive | frontend/src/pages/contacts.jsx:174 | a subsequence of a subsequence of a list is a subsequence of that list |
| Users.FieldMatches | frontend/src/components/chat/ChatList.jsx:25-26 | `field?.toLowerCase().includes(term.toLowerCase())` is true iff the field is present and the lower-cased term is a substring of the lower-cased field |
| Users.MatchesSearch | frontend/src/pages/contacts.jsx:69-70 | a user matches iff the user name is present and its lower-cased form contains the lower-cased term as a substring, or the same holds for the full name |
| Users.EmptyTermKeepsNamed | frontend/src/components/chat/ChatList.jsx:22-27 | for the initial empty term, a user matches iff a user name or a full name is present, so a user with neither never matches |
| Users.SearchIgnoresTermCase | frontend/src/components/chat/ChatList.jsx:25-26 | a term and its lower-cased form select the same users |
| Users.SearchFilter | frontend/src/components/chat/ChatList.jsx:24-27 | a user is listed iff in the input and matching the search, and the list keeps the input order |
| Users.NotSelf | frontend/src/pages/contacts.jsx:68 | every user carrying the current user's id is excluded (even a directory copy differing in other fields), and with no current user nobody is |
| Users.OtherUsers | frontend/src/pages/chats.jsx:88-90 | removes exactly the users with the current user's id, keeps order, and with no current user returns every user |
| Users.IsVerified | frontend/src/pages/contacts.jsx:75 | a verified user has a tier; tier `none` is not verified; the three tiers `monthly`, `lifetime` and `celebrity` are |
| Contacts.FilteredUsers | frontend/src/pages/contacts.jsx:66-80 | a user is listed iff in the directory, not the current user, matching the search and, on the "Verified" tab only, of a tier that is present and not `none`; directory order is kept |
| Contacts.NamelessNeverListed | frontend/src/pages/contacts.jsx:69-70 | a user with no user name and no full name is never listed, for any term and tab |
| Contacts.HasContact | frontend/src/pages/contacts.jsx:82-84 | true iff some record has `contact_user_id` equal to the user, whatever its status |
| Contacts.OwnedRecords | frontend/src/pages/contacts.jsx:50 | the reload keeps exactly the records whose `user_id` is the current user, in store order |
| Contacts.NewContact | frontend/src/pages/contacts.jsx:57-61 | the created record: owner the current user, target the given user, status pending |
| Contacts.AddThenIsContact | frontend/src/pages/contacts.jsx:54-64 | after the pending record is created and the records reloaded, `isContact` is true for the added user |
| Contacts.AddTwiceDuplicates | frontend/src/pages/contacts.jsx:57-61 | there is no duplicate check: adding twice leaves two more identical records among the reloaded ones |
| Contacts.ContactStore.constructor | frontend/src/pages/contacts.jsx:50 | the remote contact store starts with the given records and reachability |
| Contacts.ContactStore.Create | frontend/src/pages/contacts.jsx:57-61 | `Contact.create` appends the record when the store is reachable and changes nothing when it throws |
| Contacts.ContactStore.FilterByOwner | frontend/src/pages/contacts.jsx:50 | `Contact.filter({ user_id })` returns the owner's records when reachable |
| Contacts.ContactsPage.constructor | frontend/src/pages/contacts.jsx:21-26 | the initial state: no users, no contacts, no current user, empty search, dialog closed, "all" tab |
| Contacts.ContactsPage.LoadCurrentUser | frontend/src/pages/contacts.jsx:34-41 | a successful `User.me()` sets the current user; a failure leaves it |
| Contacts.ContactsPage.LoadUsers | frontend/src/pages/contacts.jsx:43-46 | a successful `User.list()` replaces the directory; a failure leaves it |
| Contacts.ContactsPage.LoadContacts | frontend/src/pages/contacts.jsx:48-52 | no-op without a current user or on a failed fetch; otherwise the list becomes exactly the current user's records |
| Contacts.ContactsPage.AddContact | frontend/src/pages/contacts.jsx:54-64 | no-op without a current user; otherwise appends exactly one `pending` record from the current user to the given user, reloads, and the user is then a contact; a failing create changes nothing |
| Contacts.ContactsPage.GetFilteredUsers | frontend/src/pages/contacts.jsx:66-80 | on the page's own state: a user is listed iff in the directory, not the current user, matching the search term and, on the "Verified" tab, verified; directory order is kept |
| Contacts.ContactsPage.IsContact | frontend/src/pages/contacts.jsx:82-84 | true iff some loaded contact record points at the user, whatever its status |
| Contacts.ContactsPage.DialogUsers | frontend/src/pages/contacts.jsx:174 | the dialog receives exactly the directory users other than the current user, in directory order |
| Chats.InConversation | frontend/src/pages/chats.jsx:60-63 | a message belongs to the pair iff its {sender, recipient} is the set {a, b} |
| Chats.Conversation | frontend/src/pages/chats.jsx:59-64 | a stored message is loaded iff its (sender, recipient) is (self, other) or (other, self); store order is kept |
| Chats.ConversationSymmetric | frontend/src/pages/chats.jsx:60-63 | the loaded list is the same whichever of the two ids is the current user |
| Chats.ConversationIsolated | frontend/src/pages/chats.jsx:60-63 | every loaded message has both ends among the two users, so messages involving a third user never appear |
| Chats.SendAllowed | frontend/src/pages/chats.jsx:70 | the guard passes only with a non-empty input, a selected chat and a current user |
| Chats.SendAllowedSpec | frontend/src/pages/chats.jsx:70 | the guard passes iff the input has a non-white-space character, a chat is selected and there is a current user |
| Chats.BlankInputRejected | frontend/src/pages/chats.jsx:70 | an input made only of white space, or empty, never passes the send guard |
| Chats.Outgoing | frontend/src/pages/chats.jsx:72-77 | the draft holds the untrimmed input, type `text`, is sent by the current user, and belongs to the pair; the draft sets no `is_read`, and the modelled store records it as unread (`false`), an assumption about the remote entity's default |
| Chats.SentMessageLoadedOnce | frontend/src/pages/chats.jsx:79-81 | after a created message from A to B, reloading the pair shows that message exactly once, from either side |
| Chats.TriggersSend | frontend/src/pages/chats.jsx:93 | Shift+Enter and every key other than Enter never send; Enter without Shift does |
| Chats.MessageStore.constructor | frontend/src/pages/chats.jsx:59-64 | an empty message store with the given reachability |
| Chats.MessageStore.Create | frontend/src/pages/chats.jsx:79 | `Message.create` appends the draft under the next id, unread, when reachable; changes nothing when it throws |
| Chats.MessageStore.FilterPair | frontend/src/pages/chats.jsx:59-64 | the pair fetch returns the pair's messages when reachable |
| Chats.ChatsPage.constructor | frontend/src/pages/chats.jsx:19-23 | the initial state: no messages, no selection, no current user, no users, empty input |
| Chats.ChatsPage.LoadCurrentUser | frontend/src/pages/chats.jsx:42-49 | a successful `User.me()` sets the current user; a failure leaves it |
| Chats.ChatsPage.LoadUsers | frontend/src/pages/chats.jsx:51-54 | a successful `User.list()` replaces the users; a failure leaves them |
| Chats.ChatsPage.LoadMessages | frontend/src/pages/chats.jsx:56-67 | no-op without a selected chat or a current user or on a failed fetch; otherwise the whole list is replaced by the pair's messages (never appended to) |
| Chats.ChatsPage.SelectChat | frontend/src/pages/chats.jsx:32-36 | selecting a new user makes it the selected chat and reloads that conversation, discarding the previous list; clicking the row already selected changes nothing, since the `[selectedChat]` effect does not run again; on a failed fetch (or with no current user) the previous conversation's list stays under the new selection |
| Chats.ChatsPage.SendMessage | frontend/src/pages/chats.jsx:69-82 | with a blank input, no selection, no current user or a failing create nothing changes; otherwise one `text` record with the untrimmed input from self to the selected user is created, the input becomes `""`, the conversation is reloaded and shows the new message exactly once |
| Chats.ChatsPage.Deliver | frontend/src/pages/chats.jsx:72-81 | after the guard: a failing create changes nothing; otherwise the one record is appended, the input cleared and the reloaded conversation shows it exactly once |
| Chats.ChatsPage.HandleKeyPress | frontend/src/pages/chats.jsx:92-97 | Enter without Shift behaves as `sendMessage`; Shift+Enter and other keys change nothing |
| Chats.ChatsPage.GetOtherUsers | frontend/src/pages/chats.jsx:88-90 | the users other than the current user, in directory order |
| Chats.ChatListExcludesSelf | frontend/src/pages/chats.jsx:118 | a row of the chat list, whatever the search, is a directory user who is not the current user |
| ChatList.FirstUpper | frontend/src/components/chat/ChatList.jsx:71 | `field?.[0]?.toUpperCase()` is defined iff the field is present and non-empty |
| ChatList.Initial | frontend/src/components/chat/ChatList.jsx:71 | the upper-cased first character of the user name, else of the full name, else `U` |
| ChatList.DisplayName | frontend/src/components/chat/ChatList.jsx:82 | the user name when truthy, otherwise the full name as it is |
| ChatList.InitialAgreesWithDisplayName | frontend/src/components/chat/ChatList.jsx:71-82 | the initial is the upper-cased first character of the shown name, and `U` exactly when no non-empty name is shown |
| ChatList.InitialNotLowerCase | frontend/src/components/chat/ChatList.jsx:71 | the initial is never a lower-case letter |
| ChatList.Subtitle | frontend/src/components/chat/ChatList.jsx:87 | the bio when non-empty, else `Online` when online, else `Last seen recently`; never empty |
| ChatList.VerificationIcon | frontend/src/components/chat/ChatList.jsx:29-34 | no badge iff the tier is absent, empty or `none`; the three tiers map to their icon and colour; any other tier falls to `MissingIcon` (an undefined component for ordinary strings) |
| ChatList.BadgeIffVerified | frontend/src/pages/profile.jsx:72 | the icon lookup runs (the none-check passes) exactly for the users the contacts page's "Verified" tab keeps; a badge is drawn only for the three known tiers among them |
| ChatList.IsHighlighted | frontend/src/components/chat/ChatList.jsx:61 | a row is highlighted only with a selection, and every row whose id is the selected chat's id is |
| ChatList.AtMostOneHighlighted | frontend/src/components/chat/ChatList.jsx:60-64 | with distinct ids, two highlighted rows are the same row, and it carries the selected chat's id; none is highlighted without a selection |
| AddContactDialog.OfferedUsers | frontend/src/components/contacts/AddContactDialog.jsx:18-21 | given the page's users, a user is offered iff in the page's directory, not the current user and matching the search, in directory order; contact records are not consulted, so existing contacts get Add again |
| AddContactDialog.SelfNeverOffered | frontend/src/pages/contacts.jsx:174 | the current user is never offered, because the page removes them before passing the users |
| AddContactDialog.HandleAddContact | frontend/src/components/contacts/AddContactDialog.jsx:23-26 | closes the dialog; without a current user or with a failing create nothing else changes; otherwise one `pending` record is appended, the page's contact list becomes exactly the current user's records and the user is a contact |
| ProfileEditor.HandleChange | frontend/src/components/profile/ProfileEditor.jsx:9-11 | the changed field holds the new value, it becomes present, and every other field is unchanged |
| ProfileEditor.LastChangeWins | frontend/src/components/profile/ProfileEditor.jsx:10 | two changes to one field leave the last value |
| ProfileEditor.ChangesCommute | frontend/src/components/profile/ProfileEditor.jsx:10 | changes to different fields commute |
| Profile.SeedEditData | frontend/src/pages/profile.jsx:31-35 | the seeded edit data has exactly `username`, `bio` and `phone_number`, each the user's value or `''` when missing |
| Profile.ApplyEdits | frontend/src/pages/profile.jsx:47 | the merged user takes each edited field present in the edit data and keeps every other field |
| Profile.SaveThenReloadShowsEdits | frontend/src/pages/profile.jsx:47 | saving complete edit data and seeding from the saved user gives back exactly that edit data |
| Profile.ApplyEditsIdempotent | frontend/src/pages/profile.jsx:47 | merging the same edit data twice equals merging it once |
| Profile.SaveUnchangedNormalises | frontend/src/pages/profile.jsx:31-47 | saving the seeded data unchanged keeps present fields, turns absent editable fields into `''`, and is the identity when all three are present |
| Profile.ProfilePage.constructor | frontend/src/pages/profile.jsx:18-21 | the initial state: no user, not editing, empty edit data, not saving |
| Profile.ProfilePage.LoadCurrentUser | frontend/src/pages/profile.jsx:27-39 | a successful `User.me()` sets the user and seeds the edit data from it; a failure changes neither |
| Profile.ProfilePage.ToggleEditing | frontend/src/pages/profile.jsx:135 | the Edit/Cancel button flips edit mode and nothing else; cancelling keeps the edit data |
| Profile.ProfilePage.ChangeField | frontend/src/components/profile/ProfileEditor.jsx:9-11 | the editor's change replaces the page's edit data by the single-field update |
| Profile.ProfilePage.SaveProfile | frontend/src/pages/profile.jsx:41-53 | no-op without a current user; otherwise Save (`disabled={isSaving}`, ProfileEditor.jsx:50) is disabled while the update is awaited and enabled afterwards on both paths; success merges the edit data into the user and leaves edit mode; failure keeps the user and edit mode |

## Left out

- Remote calls (`User.me`, `User.list`, `User.updateMyUserData`, `User.logout`, `Message.filter/create`, `Contact.filter/create`) are foreign: their results are parameters or the two store classes. `handleLogout` is such a call alone and is not modelled.
- Server-side ordering by `created_date`: it is requested, not performed by the client; the modelled store returns records in creation order, and no ordering guarantee is claimed for the client.
- Message deduplication, read watermarks and `is_read` transitions: no client code performs them (MessageBubble.jsx only displays the flag).
- Plain state setters bound to inputs and buttons are not modelled as operations: `setShowAddDialog(true)` (contacts.jsx:108), `setSearchTerm` (contacts.jsx:123), `setSelectedTab` (contacts.jsx:131, 138) and `onChange={setNewMessage}` (chats.jsx:150); the search term, tab, dialog flag and input are fields any caller may set, so the model only ever lowers `showAddDialog` and clears `newMessage` itself.
- Effects, async timing and races: `useEffect` triggers are modelled as direct calls (`SelectChat` reloads at once when the selection changes); stale responses after switching chats, unawaited `loadMessages`/`addContact` promises, and `loadContacts` running before `currentUser` is set are not modelled.
- A single `reachable` flag per store decides all of its calls, so a create that succeeds followed by a reload that fails is not modelled.
- Text.Lower: models `toLowerCase`/`toUpperCase` on ASCII letters only, not Unicode case mapping.
- Text.IsWhiteSpace: follows the ECMAScript white-space set; strings are sequences of Unicode scalar values, not UTF-16 code units.
- An absent `is_online` is modelled as `false`; a non-string `username`/`full_name` (which would throw in `toLowerCase`) is not modelled.
- ChatList.VerificationIcon: a tier string that names an inherited object property (`constructor`, `toString`) makes `verificationIcons[tier]` a function rather than undefined; the model treats every unknown tier alike, as `MissingIcon`.
- profile.jsx:59-78 repeats the chat list's verification lookup (with a larger icon size) and is covered by `ChatList.VerificationIcon`; the dialog's and profile header's avatar/name fallbacks repeat the chat list's and are not modelled separately.
- Rendering, styling, animation (`framer-motion`), scrolling (`scrollIntoView`), date formatting, layout.js, ContactCard.jsx, ChatHeader.jsx, MessageBubble.jsx, MessageInput.jsx and VerificationCard.jsx: presentation only.
