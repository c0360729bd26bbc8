/** Who may create a temporary file system. */
module TemporaryFileSystemVoter {
  import opened Security

  /** The voter only answers CREATE on a temporary file system. */
  function Supports(attribute: Attribute, subject: Subject): (r: bool)
    ensures r <==> subject == TemporaryFileSystemSubject && attribute == Create
  {
    subject.TemporaryFileSystemSubject? && attribute in [Create]
  }

  /** Granted to root, and otherwise to exactly the session users with a
      non-learner role; a token without a session user is denied. */
  function VoteOnAttribute(attribute: Attribute, token: TokenUser): (r: bool)
    ensures !token.SessionUserToken? ==> !r
    ensures token.SessionUserToken? && token.user.isRoot ==> r
    ensures token.SessionUserToken? && !token.user.isRoot ==> (r <==> token.user.performsNonLearnerFunction)
  {
    match token
    case OtherTokenUser => false
    case SessionUserToken(user) =>
      if user.isRoot then true
      else user.performsNonLearnerFunction
  }

  /** Which attribute is asked never matters once the voter votes. */
  lemma VoteIgnoresAttribute(a: Attribute, b: Attribute, token: TokenUser)
    ensures VoteOnAttribute(a, token) == VoteOnAttribute(b, token)
  {
  }
}
