# Candidate management page — a verified model

This project models the state logic of the admin page that manages election
candidates (`src/app/admin/manage-candidates/page.tsx`). It covers two
components.

- **The registration form** (`RegisterForm.RegisterCandidateForm`).
  - It holds the six inputs and the `message` / `error` / `loading` flags.
  - It derives the post options from the selected election.
  - A submission is refused when no picture is chosen. Otherwise the picture is
    uploaded and then the candidate is registered. Success clears the form.
    A failure keeps every input and shows one error text.
- **The page** (`ManageCandidates.ManageCandidatesPage`).
  - The initial load fetches the users and the admin's elections.
  - It keeps only the candidates whose election reference names one of those
    elections.
  - It prepends a newly registered candidate, with its election resolved.
  - Deleting takes two steps. The delete button only records the id and opens
    the confirmation modal. Confirming sends the DELETE and updates the list.

Every network call is an input to the model. The upload gives
`UploadOk(url) | UploadErr(error?) | UploadThrew(reason)`. The registration
gives `RegisterOk(record) | RegisterErr(message?) | RegisterThrew(reason)`. The
initial load gives `FetchResponded(usersOk, electionsOk, …) | FetchThrew(reason)`.
The DELETE gives `DeleteResolved | DeleteThrew`. Each handler returns the
requests it sends, in order. The form's submit handler also returns the
records it passes to `onCandidateAdded`. The signed-in admin's id is a
parameter.

A candidate's `election` field is a tagged union:
`Missing | Id(id) | Full(election)`. `Candidates.ElectionKey` computes the key
`ref?._id || ref` exactly as JavaScript does:
- a bare id is its own key, even an empty one;
- an embedded election with a non-empty `_id` has that id as its key;
- an embedded election with an empty `_id`, and an absent reference, give a
  value no election id equals.

The JavaScript `text || fallback` of the two error texts treats a missing and
an empty text alike (`Candidates.OrFallback`).

Files:
- `wrappers.dfy` holds `Option`.
- `lists.dfy` holds `filter` and `find` over sequences, with their laws.
- `candidates.dfy` holds the records and the shared error handling.
- `register_form.dfy` holds the form.
- `manage_candidates.dfy` holds the page.

Some behaviours of the code are easy to misread; the model follows the code:
- A DELETE that resolves with a non-OK status still removes the candidate
  from the list. Only a DELETE that throws leaves the list unchanged.
- Confirming while the pending id is empty sends nothing. It also leaves the
  modal open, because `!candidateToDelete` treats `""` like `null`.
- An empty election selection yields no posts only when no election has the
  empty id. The lookup is a plain `_id === selectedElectionId` comparison.
- Choosing another election does not clear the chosen post. This is stated in
  `SelectElection`'s contract.
- Take a record whose election is the bare id `""`, naming an election whose
  `_id` is `""`. It passes the initial filter. Once `handleCandidateAdded`
  resolves it, it holds that election embedded, and an embedded election with
  an empty `_id` no longer passes the filter. `AddKeepsOwnership` therefore
  requires a non-empty key.

## Model

| member | source | states |
|---|---|---|
| Lists.Filter | src/app/admin/manage-candidates/page.tsx:233-235 | `filter` keeps exactly the elements that satisfy the predicate and never lengthens the list |
| Lists.Find | src/app/admin/manage-candidates/page.tsx:256-258 | `find` gives an element of the list that satisfies the predicate, namely the first such one, and gives nothing exactly when no element does |
| Lists.FilterConcat | src/app/admin/manage-candidates/page.tsx:233-235 | filtering a concatenation is concatenating the filtered parts, so the original order is kept |
| Lists.FilterCount | src/app/admin/manage-candidates/page.tsx:233-235 | a kept element keeps every copy; a rejected element loses all of them |
| Lists.FilterKeepsAll | src/app/admin/manage-candidates/page.tsx:279 | a filter that rejects nothing returns its input unchanged |
| Lists.FilterIdempotent | src/app/admin/manage-candidates/page.tsx:279 | filtering twice by one predicate is the same as filtering once |
| Candidates.OrFallback | src/app/admin/manage-candidates/page.tsx:56 | the server text when it is present and non-empty, otherwise the fallback; never any other text |
| RegisterForm.AvailablePosts | src/app/admin/manage-candidates/page.tsx:31-32 | the posts of the first election whose id equals the selection; empty when no election has that id, the empty selection included |
| RegisterForm.UploadFailureText | src/app/admin/manage-candidates/page.tsx:55-57 | a non-OK upload shows the server's `error` text, or "Image upload failed." when it is absent; an exception shows its own message |
| RegisterForm.RegisterFailureText | src/app/admin/manage-candidates/page.tsx:84-88 | a non-OK registration shows the server's `message`, or "Failed to register candidate." when it is absent; an exception shows its own message |
| RegisterForm.RegisterCandidateForm.constructor | src/app/admin/manage-candidates/page.tsx:18-29 | the form starts with every input empty, no file, no status text and not loading |
| RegisterForm.RegisterCandidateForm.EditName | src/app/admin/manage-candidates/page.tsx:108 | typing a name changes only the name |
| RegisterForm.RegisterCandidateForm.EditEmail | src/app/admin/manage-candidates/page.tsx:116 | typing an email changes only the email |
| RegisterForm.RegisterCandidateForm.EditPassword | src/app/admin/manage-candidates/page.tsx:124 | typing a password changes only the password |
| RegisterForm.RegisterCandidateForm.ChooseFile | src/app/admin/manage-candidates/page.tsx:144-146 | the chosen file is the first picked one, and none when the picker gives no list or an empty list; nothing else changes |
| RegisterForm.RegisterCandidateForm.SelectElection | src/app/admin/manage-candidates/page.tsx:152 | choosing an election changes only the selection; the chosen post is kept |
| RegisterForm.RegisterCandidateForm.SelectPost | src/app/admin/manage-candidates/page.tsx:168 | choosing a post changes only the post |
| RegisterForm.RegisterCandidateForm.HandleSubmit | src/app/admin/manage-candidates/page.tsx:34-100 | no file: the error becomes "Profile picture is required.", no request is sent, and everything else is unchanged. Otherwise the upload is sent first, and the registration is sent, with the entered fields, exactly when the upload succeeded. A failed upload or registration shows its error text, clears the message, keeps every input and adds nothing. A success hands the record to the callback exactly once, shows "Candidate <name> registered successfully!" with the name as entered, and clears all six inputs. `loading` ends false whenever a file was present. These clauses are the predicate `RegisterForm.Submitted` |
| ManageCandidates.AdminCandidates | src/app/admin/manage-candidates/page.tsx:230-235 | a candidate is kept exactly when it is among the raw candidates and its election key is an admin election id; the list never grows |
| ManageCandidates.EmbeddedAgreesWithBare | src/app/admin/manage-candidates/page.tsx:234 | under `c.election?._id \|\| c.election`, a candidate with an embedded election whose `_id` is non-empty passes the filter exactly when the same candidate with the bare id would; an embedded election with an empty `_id`, and an absent reference, never pass |
| ManageCandidates.AdminCandidatesKeepOrder | src/app/admin/manage-candidates/page.tsx:233-235 | the initial filter keeps the raw order: it distributes over concatenation |
| ManageCandidates.AdminCandidatesCount | src/app/admin/manage-candidates/page.tsx:233-235 | every copy of an admitted candidate is kept; every copy of any other candidate is dropped |
| ManageCandidates.ResolveElection | src/app/admin/manage-candidates/page.tsx:256-258 | the new record's election resolves to the first page election whose id is the record's election key, and to nothing exactly when no election has that id |
| ManageCandidates.AddCandidate | src/app/admin/manage-candidates/page.tsx:259-262 | exactly one entry is prepended and the previous list follows unchanged. The entry equals the record in every field but `election`. That field is the first election object in the page's list whose id is the record's key, and is undefined exactly when none matches |
| ManageCandidates.RemoveById | src/app/admin/manage-candidates/page.tsx:279 | a candidate remains exactly when it was listed and its id differs from the deleted id |
| ManageCandidates.RemoveByIdCount | src/app/admin/manage-candidates/page.tsx:279 | every candidate with the deleted id is removed; every copy of every other candidate stays |
| ManageCandidates.RemoveByIdKeepsOrder | src/app/admin/manage-candidates/page.tsx:279 | the remaining candidates keep their order |
| ManageCandidates.RemoveAbsentId | src/app/admin/manage-candidates/page.tsx:279 | deleting an id that no candidate has leaves the list as it was |
| ManageCandidates.RemoveByIdIdempotent | src/app/admin/manage-candidates/page.tsx:279 | a second delete of the same id removes nothing more |
| ManageCandidates.RemoveAfterAdd | src/app/admin/manage-candidates/page.tsx:255-285 | deleting a just-added candidate whose id was new restores the previous list |
| ManageCandidates.AddKeepsOwnership | src/app/admin/manage-candidates/page.tsx:255-263 | if every listed candidate belongs to one of the page's elections, and the new record's key is a non-empty id of one of them, then every candidate still belongs after the add |
| ManageCandidates.ManageCandidatesPage.constructor | src/app/admin/manage-candidates/page.tsx:205-213 | the page starts with empty lists, loading, no error, the modal closed and nothing pending |
| ManageCandidates.ManageCandidatesPage.PostOptions | src/app/admin/manage-candidates/page.tsx:330-331 | the form's post options come from the page's elections: the posts of the first election whose id equals the form's selection, and none when no election has it |
| ManageCandidates.ManageCandidatesPage.FetchData | src/app/admin/manage-candidates/page.tsx:215-253 | without an admin id nothing is fetched and nothing changes. Otherwise both requests go out and loading ends. If both responses are OK, the list is the filtered raw candidates and the elections are the admin's. If either is not OK, the error is "Could not fetch required data." and neither list is set. If the load throws, the error is the caught message and neither list is set. The modal state is kept |
| ManageCandidates.ManageCandidatesPage.HandleCandidateAdded | src/app/admin/manage-candidates/page.tsx:255-263 | the list becomes the record, with its election resolved, in front of the old list; nothing else changes |
| ManageCandidates.ManageCandidatesPage.SubmitRegistration | src/app/admin/manage-candidates/page.tsx:330-333 | the form does everything `HandleSubmit` promises: the same requests, status texts, `loading` and inputs. The records it hands over are returned. The page's list gains the first of them, with its election resolved, in front; when there is none, the list is unchanged. So a registration adds the candidate and clears the form, and any other outcome leaves the list and the form's inputs as they were |
| ManageCandidates.ManageCandidatesPage.HandleDeleteCandidate | src/app/admin/manage-candidates/page.tsx:266-269 | the delete button records the id as pending and opens the modal; the list is unchanged |
| ManageCandidates.ManageCandidatesPage.CloseModal | src/app/admin/manage-candidates/page.tsx:339-342 | cancelling clears the pending id and closes the modal; the list is unchanged |
| ManageCandidates.ManageCandidatesPage.HandleConfirmDelete | src/app/admin/manage-candidates/page.tsx:272-286 | with no pending id, or an empty one, nothing is sent and nothing changes. Otherwise one DELETE for that id is sent. A request that resolves, whatever its status, removes that id from the list; one that throws leaves the list. Either way the modal closes and the pending id is cleared. Every page method keeps the invariant that the modal is open exactly while an id is pending |

## Left out

- Rendering is not modelled: the JSX, the CSS, the icons, the loading spinner,
  the choice between spinner, error text and content (lines 288-302), and the
  internals of `UserTable` and `ConfirmationModal`. These are presentation, or
  components that are not part of this model.
- RegisterForm.RegisterCandidateForm.HandleSubmit: the handler's `await`s are
  collapsed, so the state between the requests is not observable. In that
  state `loading` is true and the submit button is disabled. The model only
  states the state before and after a submission.
- Concurrency is not modelled: two overlapping submissions, `Promise.all`,
  responses arriving after unmount, and the stale closures React hands to the
  handlers. Each handler runs to completion on the state it starts from.
- JSON parsing is not modelled. A body that fails to parse or has the wrong
  shape is covered by the `…Threw` outcomes. An OK upload whose body lacks
  `url` is not modelled; the model always has a URL. An `error` or `message`
  field that is not a string is not modelled either.
- `console.error` logging is left out, as it is output only.
- `useSession` and next-auth are left out. The admin id is a parameter of
  `FetchData`, and an absent or empty id counts as not signed in.
- The `useEffect` scheduling is left out. `FetchData` is a method the caller
  invokes once the id is known.
- User records keep only the fields the page reads: id, name, email, picture
  URL, post and election reference. The spread in `handleCandidateAdded`
  copies any other fields unchanged.
- `onCandidateAdded` is assumed not to throw.
- The browser's own form validation runs before the submit handler and is not
  modelled. The inputs are `required`, and the email input has
  `type="email"`. So the handler never runs with an empty name, email,
  password, election or post, or with a malformed email. `HandleSubmit`
  accepts any field values, including ones the browser would stop.
- `next.config.ts` is not part of this model. It is a static allow-list of
  image hosts.
