/** The registration form: its field state, the post options it derives from
    the selected election, and its two-step submission (image upload, then
    candidate registration). The two network calls are replaced by their
    outcomes, passed in; the requests the handler issues are returned. */
module RegisterForm {
  import opened Wrappers
  import opened Candidates
  import Lists

  /** A picked image file (only its identity matters here). */
  datatype File = File(fileName: string)

  /** The JSON body of the registration request. */
  datatype Registration = Registration(
    name: string,
    email: string,
    password: string,
    electionId: string,
    electionPost: string,
    profilePicture: string)

  /** A request the form sends. */
  datatype FormRequest = UploadImage(file: File) | RegisterCandidate(body: Registration)

  /** What the image-upload call produced: an OK response carrying the image URL,
      a non-OK response with its optional `error` text, or an exception
      (network failure, unreadable body). */
  datatype UploadOutcome = UploadOk(url: string) | UploadErr(error: Option<string>) | UploadThrew(reason: Thrown)

  /** What the registration call produced: an OK response carrying the created
      record, a non-OK response with its optional `message`, or an exception. */
  datatype RegisterOutcome = RegisterOk(record: User) | RegisterErr(message: Option<string>) | RegisterThrew(reason: Thrown)

  /** The six editable inputs of the form. */
  datatype Fields = Fields(
    name: string,
    email: string,
    password: string,
    selectedElectionId: string,
    electionPost: string,
    profilePictureFile: Option<File>)

  const EmptyFields := Fields("", "", "", "", "", None)

  const MissingPictureError := "Profile picture is required."
  const UploadFailedError := "Image upload failed."
  const RegisterFailedError := "Failed to register candidate."

  function SuccessMessage(name: string): (text: string)
  {
    "Candidate " + name + " registered successfully!"
  }

  function HasId(id: string): (matches: Election -> bool)
  {
    (e: Election) => e.id == id
  }

  /** The post options offered for the selected election: the posts of the
      first election with that id, and none when no election has it. */
  function AvailablePosts(elections: seq<Election>, selectedElectionId: string): (r: seq<Post>)
    ensures (forall e :: e in elections ==> e.id != selectedElectionId) ==> r == []
    ensures forall i ::
              0 <= i < |elections| && elections[i].id == selectedElectionId &&
              (forall j :: 0 <= j < i ==> elections[j].id != selectedElectionId)
              ==> r == elections[i].posts
  {
    match Lists.Find(elections, HasId(selectedElectionId))
    case Some(e) => e.posts
    case None => []
  }

  /** The registration request body built from the fields and the uploaded image's URL. */
  function RegistrationOf(f: Fields, url: string): (b: Registration)
    ensures b.name == f.name && b.email == f.email && b.password == f.password
    ensures b.electionId == f.selectedElectionId && b.electionPost == f.electionPost
    ensures b.profilePicture == url
  {
    Registration(f.name, f.email, f.password, f.selectedElectionId, f.electionPost, url)
  }

  /** The error a failed upload leaves on the form: the server's `error` text
      (through the thrown `Error`), else the generic upload message; an
      exception shows its own message. */
  function UploadFailureText(upload: UploadOutcome): (msg: string)
    requires !upload.UploadOk?
    ensures upload.UploadErr? ==> msg == OrFallback(upload.error, UploadFailedError)
    ensures upload.UploadThrew? ==> msg == CaughtMessage(upload.reason)
  {
    match upload
    case UploadErr(text) => CaughtMessage(ErrorValue(OrFallback(text, UploadFailedError)))
    case UploadThrew(t) => CaughtMessage(t)
  }

  /** The error a failed registration leaves on the form. */
  function RegisterFailureText(register: RegisterOutcome): (msg: string)
    requires !register.RegisterOk?
    ensures register.RegisterErr? ==> msg == OrFallback(register.message, RegisterFailedError)
    ensures register.RegisterThrew? ==> msg == CaughtMessage(register.reason)
  {
    match register
    case RegisterErr(text) => CaughtMessage(ErrorValue(OrFallback(text, RegisterFailedError)))
    case RegisterThrew(t) => CaughtMessage(t)
  }

  /** The status line and busy flag of the form. */
  datatype Status = Status(message: string, error: string, loading: bool)

  /** What one submission does. It relates the inputs and status before and
      after, the two call outcomes, the requests sent in order, and the records
      handed to the `onCandidateAdded` callback. */
  predicate Submitted(
    before: Fields, was: Status, after: Fields, now: Status,
    upload: UploadOutcome, register: RegisterOutcome,
    requests: seq<FormRequest>, added: seq<User>)
  {
    // No picture: only the error changes, and nothing is sent.
    && (before.profilePictureFile.None? ==>
          && requests == [] && added == []
          && after == before
          && now == was.(error := MissingPictureError))
    // With a picture, the upload goes first, the registration is sent exactly
    // when the upload succeeded, and the form is idle afterwards.
    && (before.profilePictureFile.Some? ==>
          && 1 <= |requests| <= 2
          && requests[0] == UploadImage(before.profilePictureFile.value)
          && (|requests| == 2 <==> upload.UploadOk?)
          && !now.loading)
    // The registration carries the fields as entered.
    && (before.profilePictureFile.Some? && upload.UploadOk? ==>
          requests[1] == RegisterCandidate(RegistrationOf(before, upload.url)))
    // Upload failed: its error, nothing added, every field kept.
    && (before.profilePictureFile.Some? && !upload.UploadOk? ==>
          && added == []
          && now.error == UploadFailureText(upload) && now.message == ""
          && after == before)
    // Registered: the callback gets the record once, the fields are cleared,
    // and the message names the candidate as entered.
    && (before.profilePictureFile.Some? && upload.UploadOk? && register.RegisterOk? ==>
          && added == [register.record]
          && now.message == SuccessMessage(before.name) && now.error == ""
          && after == EmptyFields)
    // Registration refused: its error, nothing added, every field kept.
    && (before.profilePictureFile.Some? && upload.UploadOk? && !register.RegisterOk? ==>
          && added == []
          && now.error == RegisterFailureText(register) && now.message == ""
          && after == before)
  }

  class RegisterCandidateForm {
    var name: string
    var email: string
    var password: string
    var selectedElectionId: string
    var electionPost: string
    var profilePictureFile: Option<File>

    var message: string
    var error: string
    var loading: bool

    /** The form's inputs as one value. */
    function Inputs(): (f: Fields)
      reads this
    {
      Fields(name, email, password, selectedElectionId, electionPost, profilePictureFile)
    }

    /** The form's status line and busy flag as one value. */
    function Shown(): (s: Status)
      reads this
    {
      Status(message, error, loading)
    }

    /** An empty form showing no status line. */
    constructor ()
      ensures Inputs() == EmptyFields
      ensures message == "" && error == "" && !loading
    {
      name, email, password := "", "", "";
      selectedElectionId, electionPost := "", "";
      profilePictureFile := None;
      message, error, loading := "", "", false;
    }

    method EditName(value: string)
      modifies this
      ensures Inputs() == old(Inputs()).(name := value)
      ensures message == old(message) && error == old(error) && loading == old(loading)
    {
      name := value;
    }

    method EditEmail(value: string)
      modifies this
      ensures Inputs() == old(Inputs()).(email := value)
      ensures message == old(message) && error == old(error) && loading == old(loading)
    {
      email := value;
    }

    method EditPassword(value: string)
      modifies this
      ensures Inputs() == old(Inputs()).(password := value)
      ensures message == old(message) && error == old(error) && loading == old(loading)
    {
      password := value;
    }

    /** The file input's change: the first picked file, or none when the
        picker reports no list or an empty one. */
    method ChooseFile(files: Option<seq<File>>)
      modifies this
      ensures profilePictureFile == (if files.Some? && |files.value| > 0 then Some(files.value[0]) else None)
      ensures Inputs() == old(Inputs()).(profilePictureFile := profilePictureFile)
      ensures message == old(message) && error == old(error) && loading == old(loading)
    {
      if files.Some? && |files.value| > 0 {
        profilePictureFile := Some(files.value[0]);
      } else {
        profilePictureFile := None;
      }
    }

    /** Choosing an election changes the post options but keeps the chosen post,
        even when it is not one of the new options. */
    method SelectElection(id: string)
      modifies this
      ensures Inputs() == old(Inputs()).(selectedElectionId := id)
      ensures electionPost == old(electionPost)
      ensures message == old(message) && error == old(error) && loading == old(loading)
    {
      selectedElectionId := id;
    }

    method SelectPost(title: string)
      modifies this
      ensures Inputs() == old(Inputs()).(electionPost := title)
      ensures message == old(message) && error == old(error) && loading == old(loading)
    {
      electionPost := title;
    }

    /** Submits the form. `upload` and `register` are what the two calls would
        produce; `register` is consulted only when the upload succeeded.
        Returns the requests sent, in order, and the records handed to the
        `onCandidateAdded` callback. */
    method HandleSubmit(upload: UploadOutcome, register: RegisterOutcome)
      returns (requests: seq<FormRequest>, added: seq<User>)
      modifies this
      ensures Submitted(old(Inputs()), old(Shown()), Inputs(), Shown(), upload, register, requests, added)
    {
      requests, added := [], [];
      if profilePictureFile.None? {
        error := MissingPictureError;
        return;
      }

      loading := true;
      message := "";
      error := "";

      var caught: Option<Thrown> := None;
      requests := requests + [UploadImage(profilePictureFile.value)];
      match upload {
        case UploadThrew(t) =>
          caught := Some(t);
        case UploadErr(text) =>
          caught := Some(ErrorValue(OrFallback(text, UploadFailedError)));
        case UploadOk(url) =>
          requests := requests + [RegisterCandidate(Registration(name, email, password, selectedElectionId, electionPost, url))];
          match register {
            case RegisterOk(record) =>
              message := SuccessMessage(name);
              added := added + [record];
              name := "";
              email := "";
              password := "";
              profilePictureFile := None;
              selectedElectionId := "";
              electionPost := "";
            case RegisterErr(text) =>
              caught := Some(ErrorValue(OrFallback(text, RegisterFailedError)));
            case RegisterThrew(t) =>
              caught := Some(t);
          }
      }
      if caught.Some? {
        error := CaughtMessage(caught.value);
      }
      loading := false;
    }
  }
}
