/** Who may view a user's calendar event. */
module UserEventVoter {
  import opened Security

  /** The voter only answers VIEW on a user event. */
  function Supports(attribute: Attribute, subject: Subject): (r: bool)
    ensures r <==> subject.UserEventSubject? && attribute == View
  {
    subject.UserEventSubject? && attribute in [View]
  }

  predicate Owns(user: SessionUser, event: UserEvent)
  {
    user.id == event.user
  }

  /** The user directs, administers or instructs the school, course or
      session the event belongs to. */
  predicate IsAssociated(user: SessionUser, event: UserEvent)
  {
    || event.school in user.administeredSchoolIds
    || event.school in user.directedSchoolIds
    || event.school in user.directedProgramSchoolIds
    || event.course in user.administeredCourseIds
    || event.course in user.directedCourseIds
    || event.session in user.administeredSessionIds
    || event.session in user.instructedSessionIds
  }

  /** The voter's decision, in the order the checks are made. */
  function VoteOnAttribute(attribute: Attribute, event: UserEvent, token: TokenUser): (r: bool)
    ensures !token.SessionUserToken? ==> !r
    ensures token.SessionUserToken? && token.user.isRoot ==> r
    ensures token.SessionUserToken? && event.isPublished && Owns(token.user, event) ==> r
    ensures token.SessionUserToken? && !token.user.isRoot && IsAssociated(token.user, event)
      ==> (r <==> event.isPublished || Owns(token.user, event))
    ensures token.SessionUserToken? && !token.user.isRoot && !IsAssociated(token.user, event)
      ==> (r <==> event.isPublished && Owns(token.user, event))
  {
    match token
    case OtherTokenUser => false
    case SessionUserToken(user) =>
      if user.isRoot then true
      else if event.isPublished && user.id == event.user then true
      else if IsAssociated(user, event) then event.isPublished || user.id == event.user
      else false
  }

  /** Every id of each association list of `user` is in the same list of
      `other`, and the two are the same user with the same root flag. */
  predicate AssociationsWithin(user: SessionUser, other: SessionUser)
  {
    && user.id == other.id
    && user.isRoot == other.isRoot
    && (forall x :: x in user.administeredSchoolIds ==> x in other.administeredSchoolIds)
    && (forall x :: x in user.directedSchoolIds ==> x in other.directedSchoolIds)
    && (forall x :: x in user.directedProgramSchoolIds ==> x in other.directedProgramSchoolIds)
    && (forall x :: x in user.administeredCourseIds ==> x in other.administeredCourseIds)
    && (forall x :: x in user.directedCourseIds ==> x in other.directedCourseIds)
    && (forall x :: x in user.administeredSessionIds ==> x in other.administeredSessionIds)
    && (forall x :: x in user.instructedSessionIds ==> x in other.instructedSessionIds)
  }

  /** Granting is monotone in the associations: giving a user more schools,
      courses or sessions never takes a view permission away. */
  lemma GrantMonotone(attribute: Attribute, event: UserEvent, user: SessionUser, other: SessionUser)
    requires AssociationsWithin(user, other)
    requires VoteOnAttribute(attribute, event, SessionUserToken(user))
    ensures VoteOnAttribute(attribute, event, SessionUserToken(other))
  {
    if !user.isRoot && !(event.isPublished && Owns(user, event)) {
      assert IsAssociated(other, event);
    }
  }

  /** An unpublished event is never shown to a non-root user who is not
      associated with it, even its owner. */
  lemma UnpublishedUnassociatedDenied(attribute: Attribute, event: UserEvent, user: SessionUser)
    requires !user.isRoot && !event.isPublished && !IsAssociated(user, event)
    ensures !VoteOnAttribute(attribute, event, SessionUserToken(user))
  {
  }
}
