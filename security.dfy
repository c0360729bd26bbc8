/** What the relationship voters are given: the permission asked for, the
    object it is asked about, and the user behind the security token. */
module Security {

  /** The permissions a voter can be asked about. */
  datatype Attribute = View | Create | Edit | Delete | Lock | Unlock | Rollover

  /** The calendar event of a user, with the ids of the user who owns it and
      of the school, course and session it belongs to. */
  datatype UserEvent = UserEvent(
    isPublished: bool,
    user: int,
    school: int,
    course: int,
    session: int
  )

  /** The object a permission is asked about. */
  datatype Subject =
    | UserEventSubject(event: UserEvent)
    | TemporaryFileSystemSubject
    | OtherSubject

  /** A logged-in user as the session sees it: the root flag, the id, whether
      any of its roles is other than learner, and the ids of the schools,
      courses and sessions it administers, directs or instructs. */
  datatype SessionUser = SessionUser(
    id: int,
    isRoot: bool,
    performsNonLearnerFunction: bool,
    administeredSchoolIds: seq<int>,
    directedSchoolIds: seq<int>,
    directedProgramSchoolIds: seq<int>,
    administeredCourseIds: seq<int>,
    directedCourseIds: seq<int>,
    administeredSessionIds: seq<int>,
    instructedSessionIds: seq<int>
  )

  /** The user a security token carries: a session user, or anything else
      (an anonymous user, a service token). */
  datatype TokenUser =
    | SessionUserToken(user: SessionUser)
    | OtherTokenUser
}
