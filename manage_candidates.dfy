/** The candidate-management page: it loads the users and the admin's
    elections, keeps only the candidates of those elections, prepends newly
    registered candidates, and deletes a candidate only after the admin
    confirms in a modal. Each network call is replaced by its outcome, passed
    in; the requests the handlers issue are returned. */
module ManageCandidates {
  import opened Wrappers
  import opened Candidates
  import opened RegisterForm
  import Lists

  /** A request the page sends. */
  datatype PageRequest = GetUsers | GetAdminElections(adminId: string) | DeleteUser(id: string)

  /** What the initial load produced: both responses (each OK or not, with the
      payloads an OK pair carries), or an exception. */
  datatype FetchOutcome =
    | FetchResponded(usersOk: bool, electionsOk: bool, rawCandidates: seq<User>, adminElections: seq<Election>)
    | FetchThrew(reason: Thrown)

  /** What the DELETE call did: it resolved (with any status), or it threw. */
  datatype DeleteOutcome = DeleteResolved | DeleteThrew

  /** The two-step delete flow: nothing pending, or a candidate id awaiting confirmation. */
  datatype DeletePhase = Idle | PendingConfirmation(id: string)

  const FetchFailedError := "Could not fetch required data."

  /** The ids of the admin's elections, as a set. */
  function AdminElectionIds(elections: seq<Election>): (ids: set<string>)
    ensures forall k :: k in ids <==> exists e :: e in elections && e.id == k
  {
    set e | e in elections :: e.id
  }

  /** Whether a candidate's election reference names one of the given elections. */
  predicate InElections(c: User, ids: set<string>)
  {
    ElectionKey(c.election).Some? && ElectionKey(c.election).value in ids
  }

  /** An embedded election with a non-empty `_id` is filtered like its bare id;
      one with an empty `_id`, like an absent reference, names no election. */
  lemma EmbeddedAgreesWithBare(c: User, e: Election, ids: set<string>)
    ensures e.id != "" ==> (InElections(c.(election := Full(e)), ids) <==> InElections(c.(election := Id(e.id)), ids))
    ensures e.id == "" ==> !InElections(c.(election := Full(e)), ids)
    ensures !InElections(c.(election := Missing), ids)
  {
  }

  function BelongsTo(ids: set<string>): (belongs: User -> bool)
  {
    (c: User) => InElections(c, ids)
  }

  /** The candidates shown after the initial load: those of `raw` whose election
      reference names one of the admin's elections, in their original order. */
  function AdminCandidates(raw: seq<User>, adminElections: seq<Election>): (r: seq<User>)
    ensures |r| <= |raw|
    ensures forall c :: c in r <==> c in raw && InElections(c, AdminElectionIds(adminElections))
  {
    Lists.Filter(raw, BelongsTo(AdminElectionIds(adminElections)))
  }

  function KeyIs(key: Option<string>): (matches: Election -> bool)
  {
    (e: Election) => key == Some(e.id)
  }

  /** The election a reference resolves to among `elections`: the first one
      whose id is the reference's key, if any. */
  function ResolveElection(ref: ElectionRef, elections: seq<Election>): (r: Option<Election>)
    ensures r.Some? ==> r.value in elections && ElectionKey(ref) == Some(r.value.id)
    ensures r.None? <==> forall e :: e in elections ==> ElectionKey(ref) != Some(e.id)
    ensures forall i ::
              0 <= i < |elections| && ElectionKey(ref) == Some(elections[i].id) &&
              (forall j :: 0 <= j < i ==> ElectionKey(ref) != Some(elections[j].id))
              ==> r == Some(elections[i])
  {
    Lists.Find(elections, KeyIs(ElectionKey(ref)))
  }

  /** The list after a registration: the new record, its election replaced by the
      resolved election object (or left undefined when none matches), in front
      of the previous list. */
  function AddCandidate(prev: seq<User>, c: User, elections: seq<Election>): (r: seq<User>)
    ensures |r| == |prev| + 1 && r[1..] == prev
    ensures r[0] == c.(election := r[0].election)
    ensures r[0].election.Full? || r[0].election.Missing?
    ensures r[0].election.Full? ==>
      r[0].election.election in elections && ElectionKey(c.election) == Some(r[0].election.election.id)
    ensures r[0].election.Missing? <==> forall e :: e in elections ==> ElectionKey(c.election) != Some(e.id)
    ensures r[0].election == match ResolveElection(c.election, elections)
                             case Some(e) => Full(e)
                             case None => Missing
  {
    var resolved := match ResolveElection(c.election, elections)
      case Some(e) => Full(e)
      case None => Missing;
    [c.(election := resolved)] + prev
  }

  function IdIsNot(id: string): (keeps: User -> bool)
  {
    (c: User) => c.id != id
  }

  /** The list after a confirmed delete: every candidate with that id is gone. */
  function RemoveById(candidates: seq<User>, id: string): (r: seq<User>)
    ensures |r| <= |candidates|
    ensures forall c :: c in r <==> c in candidates && c.id != id
  {
    Lists.Filter(candidates, IdIsNot(id))
  }

  /** The initial filter keeps the raw order: filtering a concatenation is
      concatenating the filtered parts. */
  lemma AdminCandidatesKeepOrder(a: seq<User>, b: seq<User>, adminElections: seq<Election>)
    ensures AdminCandidates(a + b, adminElections) == AdminCandidates(a, adminElections) + AdminCandidates(b, adminElections)
  {
    Lists.FilterConcat(a, b, BelongsTo(AdminElectionIds(adminElections)));
  }

  /** The initial filter drops no copy of a candidate it keeps. */
  lemma AdminCandidatesCount(raw: seq<User>, adminElections: seq<Election>, c: User)
    ensures multiset(AdminCandidates(raw, adminElections))[c] ==
      if InElections(c, AdminElectionIds(adminElections)) then multiset(raw)[c] else 0
  {
    Lists.FilterCount(raw, BelongsTo(AdminElectionIds(adminElections)), c);
  }

  /** A delete removes exactly the candidates with that id, all copies of the others stay. */
  lemma RemoveByIdCount(candidates: seq<User>, id: string, c: User)
    ensures multiset(RemoveById(candidates, id))[c] == if c.id == id then 0 else multiset(candidates)[c]
  {
    Lists.FilterCount(candidates, IdIsNot(id), c);
  }

  /** A delete keeps the order of the remaining candidates. */
  lemma RemoveByIdKeepsOrder(a: seq<User>, b: seq<User>, id: string)
    ensures RemoveById(a + b, id) == RemoveById(a, id) + RemoveById(b, id)
  {
    Lists.FilterConcat(a, b, IdIsNot(id));
  }

  /** Deleting an id no candidate has leaves the list as it is. */
  lemma RemoveAbsentId(candidates: seq<User>, id: string)
    requires forall c :: c in candidates ==> c.id != id
    ensures RemoveById(candidates, id) == candidates
  {
    Lists.FilterKeepsAll(candidates, IdIsNot(id));
  }

  /** Confirming the same delete twice removes nothing more. */
  lemma RemoveByIdIdempotent(candidates: seq<User>, id: string)
    ensures RemoveById(RemoveById(candidates, id), id) == RemoveById(candidates, id)
  {
    Lists.FilterIdempotent(candidates, IdIsNot(id));
  }

  /** Deleting a just-registered candidate whose id was new restores the list. */
  lemma RemoveAfterAdd(prev: seq<User>, c: User, elections: seq<Election>)
    requires forall x :: x in prev ==> x.id != c.id
    ensures RemoveById(AddCandidate(prev, c, elections), c.id) == prev
  {
    var added := AddCandidate(prev, c, elections);
    assert added == [added[0]] + prev;
    RemoveByIdKeepsOrder([added[0]], prev, c.id);
    RemoveAbsentId(prev, c.id);
  }

  /** A registration whose election reference names one of the page's elections
      keeps every listed candidate within those elections. */
  lemma AddKeepsOwnership(prev: seq<User>, c: User, elections: seq<Election>)
    requires forall x :: x in prev ==> InElections(x, AdminElectionIds(elections))
    requires InElections(c, AdminElectionIds(elections)) && ElectionKey(c.election) != Some("")
    ensures forall x :: x in AddCandidate(prev, c, elections) ==> InElections(x, AdminElectionIds(elections))
  {
  }

  class ManageCandidatesPage {
    /** The registration form the page renders, wired to `HandleCandidateAdded`. */
    const form: RegisterCandidateForm

    var candidates: seq<User>
    var elections: seq<Election>
    var loading: bool
    var error: Option<string>

    var isModalOpen: bool
    var candidateToDelete: Option<string>

    /** The modal is open exactly while a candidate id is held for deletion. */
    ghost predicate Valid()
      reads this
    {
      isModalOpen <==> candidateToDelete.Some?
    }

    function Phase(): (phase: DeletePhase)
      reads this
    {
      if candidateToDelete.Some? then PendingConfirmation(candidateToDelete.value) else Idle
    }

    constructor ()
      ensures Valid() && fresh(form)
      ensures candidates == [] && elections == [] && loading && error == None
      ensures Phase() == Idle && !isModalOpen
    {
      form := new RegisterCandidateForm();
      candidates, elections := [], [];
      loading, error := true, None;
      isModalOpen, candidateToDelete := false, None;
    }

    /** The post options the form offers: the page passes its elections to the
        form, which lists the posts of the first one the selection names. */
    function PostOptions(): (r: seq<Post>)
      reads this, form
      ensures (forall e :: e in elections ==> e.id != form.selectedElectionId) ==> r == []
      ensures forall i ::
                0 <= i < |elections| && elections[i].id == form.selectedElectionId &&
                (forall j :: 0 <= j < i ==> elections[j].id != form.selectedElectionId)
                ==> r == elections[i].posts
    {
      AvailablePosts(elections, form.selectedElectionId)
    }

    /** The initial load, run once the signed-in admin's id is known. */
    method FetchData(adminId: Option<string>, outcome: FetchOutcome) returns (requests: seq<PageRequest>)
      requires Valid()
      modifies this
      ensures Valid()
      ensures isModalOpen == old(isModalOpen) && candidateToDelete == old(candidateToDelete)
      // No admin id yet: nothing is fetched and nothing changes.
      ensures adminId.None? || adminId == Some("") ==> requests == [] && unchanged(this)
      ensures adminId.Some? && adminId.value != "" ==>
        requests == [GetUsers, GetAdminElections(adminId.value)] && !loading
      // Both responses OK: the filtered candidates and the admin's elections.
      ensures adminId.Some? && adminId.value != "" && outcome.FetchResponded? && outcome.usersOk && outcome.electionsOk ==>
        && candidates == AdminCandidates(outcome.rawCandidates, outcome.adminElections)
        && elections == outcome.adminElections
        && error == old(error)
      // Either response not OK: one fixed error, neither list set.
      ensures adminId.Some? && adminId.value != "" && outcome.FetchResponded? && !(outcome.usersOk && outcome.electionsOk) ==>
        && error == Some(FetchFailedError)
        && candidates == old(candidates) && elections == old(elections)
      // An exception: its message, neither list set.
      ensures adminId.Some? && adminId.value != "" && outcome.FetchThrew? ==>
        && error == Some(CaughtMessage(outcome.reason))
        && candidates == old(candidates) && elections == old(elections)
    {
      requests := [];
      if adminId.None? || adminId.value == "" {
        return;
      }
      var caught: Option<Thrown> := None;
      requests := [GetUsers, GetAdminElections(adminId.value)];
      match outcome {
        case FetchThrew(t) =>
          caught := Some(t);
        case FetchResponded(usersOk, electionsOk, raw, adminElections) =>
          if !usersOk || !electionsOk {
            caught := Some(ErrorValue(FetchFailedError));
          } else {
            candidates := AdminCandidates(raw, adminElections);
            elections := adminElections;
          }
      }
      if caught.Some? {
        error := Some(CaughtMessage(caught.value));
      }
      loading := false;
    }

    /** The form's `onCandidateAdded` callback: the new record goes first, with
        its election resolved against the page's elections. */
    method HandleCandidateAdded(newCandidate: User)
      requires Valid()
      modifies this
      ensures Valid()
      ensures candidates == AddCandidate(old(candidates), newCandidate, elections)
      ensures elections == old(elections) && loading == old(loading) && error == old(error)
      ensures isModalOpen == old(isModalOpen) && candidateToDelete == old(candidateToDelete)
    {
      candidates := AddCandidate(candidates, newCandidate, elections);
    }

    /** A submission of the page's form, its callback wired to `HandleCandidateAdded`. */
    method SubmitRegistration(upload: UploadOutcome, register: RegisterOutcome)
      returns (requests: seq<FormRequest>, added: seq<User>)
      requires Valid()
      modifies this, form
      ensures Valid()
      ensures Submitted(old(form.Inputs()), old(form.Shown()), form.Inputs(), form.Shown(), upload, register, requests, added)
      ensures candidates == if added == [] then old(candidates) else AddCandidate(old(candidates), added[0], elections)
      ensures old(form.profilePictureFile).Some? && upload.UploadOk? && register.RegisterOk? ==>
        && candidates == AddCandidate(old(candidates), register.record, elections)
        && form.Inputs() == EmptyFields
      ensures !(old(form.profilePictureFile).Some? && upload.UploadOk? && register.RegisterOk?) ==>
        && candidates == old(candidates)
        && form.Inputs() == old(form.Inputs())
      ensures elections == old(elections) && loading == old(loading) && error == old(error)
      ensures isModalOpen == old(isModalOpen) && candidateToDelete == old(candidateToDelete)
    {
      requests, added := form.HandleSubmit(upload, register);
      if added != [] {
        HandleCandidateAdded(added[0]);
      }
    }

    /** The table's delete button: remember the id and open the modal; the list stays. */
    method HandleDeleteCandidate(id: string)
      requires Valid()
      modifies this
      ensures Valid()
      ensures Phase() == PendingConfirmation(id) && isModalOpen
      ensures candidates == old(candidates) && elections == old(elections)
      ensures loading == old(loading) && error == old(error)
    {
      candidateToDelete := Some(id);
      isModalOpen := true;
    }

    /** The modal's cancel: forget the id and close the modal; the list stays. */
    method CloseModal()
      requires Valid()
      modifies this
      ensures Valid()
      ensures Phase() == Idle && !isModalOpen
      ensures candidates == old(candidates) && elections == old(elections)
      ensures loading == old(loading) && error == old(error)
    {
      isModalOpen := false;
      candidateToDelete := None;
    }

    /** The modal's confirm: send the DELETE; once it resolves, whatever its
        status, drop the candidate from the list; a thrown request leaves the
        list. Either way the modal closes and the id is forgotten. */
    method HandleConfirmDelete(outcome: DeleteOutcome) returns (requests: seq<PageRequest>)
      requires Valid()
      modifies this
      ensures Valid()
      // Nothing (or an empty id) pending: nothing is sent and nothing changes.
      ensures old(candidateToDelete).None? || old(candidateToDelete) == Some("") ==>
        requests == [] && unchanged(this)
      ensures old(candidateToDelete).Some? && old(candidateToDelete).value != "" ==>
        && requests == [DeleteUser(old(candidateToDelete).value)]
        && candidates == (if outcome.DeleteResolved?
                          then RemoveById(old(candidates), old(candidateToDelete).value)
                          else old(candidates))
        && Phase() == Idle && !isModalOpen
      ensures elections == old(elections) && loading == old(loading) && error == old(error)
    {
      requests := [];
      if candidateToDelete.None? || candidateToDelete.value == "" {
        return;
      }
      var id := candidateToDelete.value;
      requests := [DeleteUser(id)];
      if outcome.DeleteResolved? {
        candidates := RemoveById(candidates, id);
      }
      isModalOpen := false;
      candidateToDelete := None;
    }
  }
}
