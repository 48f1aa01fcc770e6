/** The records the candidate-management page works with (elections, posts,
    users) and the two pieces of error handling both of its handlers share. */
module Candidates {
  import opened Wrappers

  /** A contestable role in an election, known only by its title. */
  datatype Post = Post(title: string)

  /** An election as the admin-elections endpoint returns it. */
  datatype Election = Election(id: string, title: string, posts: seq<Post>)

  /** A candidate's `election` field: absent (`undefined`), a bare election id,
      or the whole election object embedded in the record. */
  datatype ElectionRef = Missing | Id(id: string) | Full(election: Election)

  /** A user record as the users endpoint and the registration endpoint return it. */
  datatype User = User(
    id: string,
    name: string,
    email: string,
    profilePicture: string,
    electionPost: string,
    election: ElectionRef)

  /** The election id a reference stands for, as `ref?._id || ref` computes it:
      `None` is a value no election id (a string) can be equal to -- `undefined`,
      or an embedded object whose `_id` is empty. */
  function ElectionKey(ref: ElectionRef): (k: Option<string>)
    ensures ref.Missing? ==> k.None?
    ensures ref.Id? ==> k == Some(ref.id)
    ensures ref.Full? ==> k == (if ref.election.id != "" then Some(ref.election.id) else None)
  {
    match ref
    case Missing => None
    case Id(id) => Some(id)
    case Full(e) => if e.id != "" then Some(e.id) else None
  }

  /** What a handler's `catch` block receives. */
  datatype Thrown =
    | ErrorValue(message: string)   // an `Error` instance
    | StringValue(text: string)     // a thrown string
    | OtherValue                    // anything else

  const UnexpectedError := "An unexpected error occurred."

  /** The text a `catch` block shows for what it caught. */
  function CaughtMessage(t: Thrown): (msg: string)
    ensures t.ErrorValue? ==> msg == t.message
    ensures t.StringValue? ==> msg == t.text
    ensures t.OtherValue? ==> msg == UnexpectedError
  {
    match t
    case ErrorValue(m) => m
    case StringValue(s) => s
    case OtherValue => UnexpectedError
  }

  /** `text || fallback` for a server-supplied text that may be missing: an
      absent or empty text is falsy and yields the fallback. */
  function OrFallback(text: Option<string>, fallback: string): (r: string)
    ensures r == fallback || text == Some(r)
    ensures r == fallback <== text.None? || text == Some("")
    ensures text.Some? && text.value != "" ==> r == text.value
  {
    if text.Some? && text.value != "" then text.value else fallback
  }
}
