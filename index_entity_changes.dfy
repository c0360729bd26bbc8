/** The Doctrine listener that keeps the search indexes in step with the
    database: on every persisted, updated or about-to-be-removed entity it
    dispatches index requests to the message bus or calls a backend's
    `delete` directly. */
module EventListener {
  import opened Batching

  /** `CourseIndexRequest::MAX_COURSES`: the most course ids one request carries. */
  const MaxCourses: nat := 50

  datatype Option<T> = None | Some(value: T)

  /** What the listener can learn about a changed entity: which of the
      interfaces it implements, and the ids those interfaces expose. */
  datatype Entity = Entity(
    id: int,
    isUser: bool,                         // UserInterface
    authenticationUser: Option<int>,      // AuthenticationInterface: id of getUser()
    isCourse: bool,                       // CourseInterface
    isSession: bool,                      // SessionInterface
    isLearningMaterial: bool,             // LearningMaterialInterface
    indexableCourses: Option<seq<int>>    // IndexableCoursesEntityInterface: ids of getIndexableCourses()
  )

  /** The messages the listener hands to the bus. */
  datatype Message =
    | UserIndexRequest(ids: seq<int>)
    | CourseIndexRequest(ids: seq<int>)
    | LearningMaterialTextExtractionRequest(ids: seq<int>)

  /** One outward call made by the listener, in the order it is made:
      a bus dispatch, or a synchronous delete on one of the index backends. */
  datatype Call =
    | Dispatch(message: Message)
    | DeleteUser(id: int)              // usersIndex->delete
    | DeleteCourse(id: int)            // curriculumIndex->deleteCourse
    | DeleteSession(id: int)           // curriculumIndex->deleteSession
    | DeleteLearningMaterial(id: int)  // learningMaterialsIndex->delete

  // ---------------------------------------------------------------------
  // What each callback does, as a function of the entity and of the two
  // isEnabled() gates it consults.

  /** `indexUser`: one request for the user, when the users index is on. */
  function IndexUserCalls(usersEnabled: bool, userId: int): seq<Call>
  {
    if usersEnabled then [Dispatch(UserIndexRequest([userId]))] else []
  }

  /** One `CourseIndexRequest` per batch, in batch order. */
  function CourseRequests(batches: seq<seq<int>>): (r: seq<Call>)
    ensures |r| == |batches|
    ensures forall i :: 0 <= i < |r| ==> r[i] == Dispatch(CourseIndexRequest(batches[i]))
  {
    seq(|batches|, i requires 0 <= i < |batches| => Dispatch(CourseIndexRequest(batches[i])))
  }

  /** `indexCourses`: the course ids in batches of at most MaxCourses, when
      the curriculum index is on. */
  function IndexCoursesCalls(curriculumEnabled: bool, courseIds: seq<int>): seq<Call>
  {
    if curriculumEnabled then CourseRequests(Chunk(courseIds, MaxCourses)) else []
  }

  /** The courses an entity exposes for reindexing, if it exposes any. */
  function IndexableCoursesCalls(e: Entity, curriculumEnabled: bool): seq<Call>
  {
    match e.indexableCourses
    case Some(ids) => IndexCoursesCalls(curriculumEnabled, ids)
    case None => []
  }

  function AuthenticationCalls(e: Entity, usersEnabled: bool): seq<Call>
  {
    match e.authenticationUser
    case Some(userId) => IndexUserCalls(usersEnabled, userId)
    case None => []
  }

  /** `indexUser` on the entity itself, when `reindex` says it is due. */
  function OwnUserCalls(e: Entity, reindex: bool, usersEnabled: bool): seq<Call>
  {
    if reindex then IndexUserCalls(usersEnabled, e.id) else []
  }

  /** The text-extraction request a new learning material gets. */
  function TextExtractionCalls(e: Entity): seq<Call>
  {
    if e.isLearningMaterial then [Dispatch(LearningMaterialTextExtractionRequest([e.id]))] else []
  }

  /** `postPersist`. */
  function PersistCalls(e: Entity, usersEnabled: bool, curriculumEnabled: bool): seq<Call>
  {
    OwnUserCalls(e, e.isUser, usersEnabled)
    + AuthenticationCalls(e, usersEnabled)
    + TextExtractionCalls(e)
    + IndexableCoursesCalls(e, curriculumEnabled)
  }

  /** The change-set filter: a user whose only changed field is `examined`
      was touched by the user sync and is not reindexed. */
  predicate ReindexAfterUpdate(changedFields: seq<string>)
  {
    changedFields != ["examined"]
  }

  /** `postUpdate`; `changedFields` are the keys of the entity's change set. */
  function UpdateCalls(e: Entity, changedFields: seq<string>, usersEnabled: bool, curriculumEnabled: bool): seq<Call>
  {
    OwnUserCalls(e, e.isUser && ReindexAfterUpdate(changedFields), usersEnabled)
    + AuthenticationCalls(e, usersEnabled)
    + IndexableCoursesCalls(e, curriculumEnabled)
  }

  /** What `preRemove` does once past the session check: delete a learning
      material, reindex the courses. */
  function RemoveTailCalls(e: Entity, curriculumEnabled: bool): seq<Call>
  {
    (if e.isLearningMaterial then [DeleteLearningMaterial(e.id)] else [])
    + IndexableCoursesCalls(e, curriculumEnabled)
  }

  /** What `preRemove` does before its session check: delete a user,
      reindex an authentication's user, delete a course. */
  function RemoveHeadCalls(e: Entity, usersEnabled: bool): seq<Call>
  {
    (if e.isUser then [DeleteUser(e.id)] else [])
    + AuthenticationCalls(e, usersEnabled)
    + (if e.isCourse then [DeleteCourse(e.id)] else [])
  }

  /** `preRemove`; a session stops the callback right after its delete. */
  function RemoveCalls(e: Entity, usersEnabled: bool, curriculumEnabled: bool): seq<Call>
  {
    RemoveHeadCalls(e, usersEnabled)
    + (if e.isSession then [DeleteSession(e.id)] else RemoveTailCalls(e, curriculumEnabled))
  }

  // ---------------------------------------------------------------------
  // Views of a call log.

  datatype RequestKind = UserIndex | CourseIndex | TextExtraction

  function KindOf(m: Message): RequestKind
  {
    match m
    case UserIndexRequest(_) => UserIndex
    case CourseIndexRequest(_) => CourseIndex
    case LearningMaterialTextExtractionRequest(_) => TextExtraction
  }

  /** The id lists of the dispatched requests of one kind, in dispatch order. */
  function Payloads(calls: seq<Call>, kind: RequestKind): (r: seq<seq<int>>)
    ensures |r| <= |calls|
  {
    if calls == [] then []
    else
      (if calls[0].Dispatch? && KindOf(calls[0].message) == kind then [calls[0].message.ids] else [])
      + Payloads(calls[1..], kind)
  }

  /** The backend delete calls, in call order. */
  function Deletes(calls: seq<Call>): (r: seq<Call>)
    ensures forall c :: c in r ==> c in calls && !c.Dispatch?
  {
    if calls == [] then []
    else (if calls[0].Dispatch? then [] else [calls[0]]) + Deletes(calls[1..])
  }

  lemma {:induction false} PayloadsAppend(a: seq<Call>, b: seq<Call>, kind: RequestKind)
    ensures Payloads(a + b, kind) == Payloads(a, kind) + Payloads(b, kind)
    decreases |a|
  {
    if a == [] {
      assert a + b == b;
    } else {
      assert (a + b)[1..] == a[1..] + b;
      PayloadsAppend(a[1..], b, kind);
    }
  }

  lemma {:induction false} DeletesAppend(a: seq<Call>, b: seq<Call>)
    ensures Deletes(a + b) == Deletes(a) + Deletes(b)
    decreases |a|
  {
    if a == [] {
      assert a + b == b;
    } else {
      assert (a + b)[1..] == a[1..] + b;
      DeletesAppend(a[1..], b);
    }
  }

  lemma PayloadsSingle(c: Call, kind: RequestKind)
    ensures Payloads([c], kind) == if c.Dispatch? && KindOf(c.message) == kind then [c.message.ids] else []
    ensures Deletes([c]) == if c.Dispatch? then [] else [c]
  {
    assert [c][1..] == [];
  }

  lemma IndexUserPayloads(usersEnabled: bool, userId: int, kind: RequestKind)
    ensures Payloads(IndexUserCalls(usersEnabled, userId), kind)
      == if usersEnabled && kind == UserIndex then [[userId]] else []
    ensures Deletes(IndexUserCalls(usersEnabled, userId)) == []
  {
    if usersEnabled {
      PayloadsSingle(Dispatch(UserIndexRequest([userId])), kind);
    }
  }

  /** Requests for the batches, viewed by kind: exactly the batches for
      course requests, nothing else. */
  lemma {:induction false} CourseRequestsPayloads(batches: seq<seq<int>>, kind: RequestKind)
    ensures Payloads(CourseRequests(batches), kind) == if kind == CourseIndex then batches else []
    ensures Deletes(CourseRequests(batches)) == []
    decreases |batches|
  {
    if batches != [] {
      var r := CourseRequests(batches);
      assert r == [r[0]] + r[1..];
      assert r[1..] == CourseRequests(batches[1..]);
      CourseRequestsPayloads(batches[1..], kind);
      PayloadsAppend([r[0]], r[1..], kind);
      DeletesAppend([r[0]], r[1..]);
      assert batches == [batches[0]] + batches[1..];
    }
  }

  // ---------------------------------------------------------------------
  // Properties of the callbacks.

  /** `indexCourses` with the curriculum index on: ceil(N / MaxCourses)
      requests, none over MaxCourses ids, which read in order give back the
      course ids; nothing at all for an empty list or a disabled index. */
  lemma IndexCoursesBatches(curriculumEnabled: bool, courseIds: seq<int>)
    ensures var p := Payloads(IndexCoursesCalls(curriculumEnabled, courseIds), CourseIndex);
      if curriculumEnabled then
        && |p| == |IndexCoursesCalls(curriculumEnabled, courseIds)| == (|courseIds| + MaxCourses - 1) / MaxCourses
        && (forall i :: 0 <= i < |p| ==> 0 < |p[i]| <= MaxCourses)
        && Flatten(p) == courseIds
        && (p == [] <==> courseIds == [])
      else IndexCoursesCalls(curriculumEnabled, courseIds) == []
  {
    if curriculumEnabled {
      CourseRequestsPayloads(Chunk(courseIds, MaxCourses), CourseIndex);
      ChunkCount(courseIds, MaxCourses);
      ChunkFlatten(courseIds, MaxCourses);
    }
  }

  /** Fifty-five course ids make two requests: the first fifty, then the
      last five. */
  lemma FiftyFiveCourses(courseIds: seq<int>)
    requires |courseIds| == 55
    ensures IndexCoursesCalls(true, courseIds)
      == [Dispatch(CourseIndexRequest(courseIds[..50])), Dispatch(CourseIndexRequest(courseIds[50..]))]
  {
    var rest := courseIds[MaxCourses..];
    assert Chunk(rest, MaxCourses) == [rest];
    assert Chunk(courseIds, MaxCourses) == [courseIds[..MaxCourses]] + [rest];
  }

  /** What the courses part of a callback contributes, by kind. */
  lemma IndexableCoursesPayloads(e: Entity, curriculumEnabled: bool, kind: RequestKind)
    ensures Payloads(IndexableCoursesCalls(e, curriculumEnabled), kind)
      == if kind == CourseIndex && curriculumEnabled && e.indexableCourses.Some?
         then Chunk(e.indexableCourses.value, MaxCourses) else []
    ensures Deletes(IndexableCoursesCalls(e, curriculumEnabled)) == []
  {
    if e.indexableCourses.Some? && curriculumEnabled {
      CourseRequestsPayloads(Chunk(e.indexableCourses.value, MaxCourses), kind);
    }
  }

  lemma AuthenticationPayloads(e: Entity, usersEnabled: bool, kind: RequestKind)
    ensures Payloads(AuthenticationCalls(e, usersEnabled), kind)
      == if kind == UserIndex && usersEnabled then UserIds(e, false) else []
    ensures Deletes(AuthenticationCalls(e, usersEnabled)) == []
  {
    if e.authenticationUser.Some? {
      IndexUserPayloads(usersEnabled, e.authenticationUser.value, kind);
    }
  }

  /** A log of up to four parts, viewed by kind, is the parts viewed by kind. */
  lemma Split4(a: seq<Call>, b: seq<Call>, c: seq<Call>, d: seq<Call>, kind: RequestKind)
    ensures Payloads(a + b + c + d, kind) == Payloads(a, kind) + Payloads(b, kind) + Payloads(c, kind) + Payloads(d, kind)
    ensures Deletes(a + b + c + d) == Deletes(a) + Deletes(b) + Deletes(c) + Deletes(d)
  {
    PayloadsAppend(a + b + c, d, kind);
    PayloadsAppend(a + b, c, kind);
    PayloadsAppend(a, b, kind);
    DeletesAppend(a + b + c, d);
    DeletesAppend(a + b, c);
    DeletesAppend(a, b);
  }

  lemma OwnUserPayloads(e: Entity, reindex: bool, usersEnabled: bool, kind: RequestKind)
    ensures Payloads(OwnUserCalls(e, reindex, usersEnabled), kind)
      == if reindex && usersEnabled && kind == UserIndex then [[e.id]] else []
    ensures Deletes(OwnUserCalls(e, reindex, usersEnabled)) == []
  {
    if reindex {
      IndexUserPayloads(usersEnabled, e.id, kind);
    }
  }

  lemma TextExtractionPayloads(e: Entity, kind: RequestKind)
    ensures Payloads(TextExtractionCalls(e), kind)
      == if e.isLearningMaterial && kind == TextExtraction then [[e.id]] else []
    ensures Deletes(TextExtractionCalls(e)) == []
  {
    if e.isLearningMaterial {
      PayloadsSingle(Dispatch(LearningMaterialTextExtractionRequest([e.id])), kind);
    }
  }

  /** The user ids reindexed for an entity's own user and for the user an
      authentication belongs to, in that order. */
  function UserIds(e: Entity, ownUser: bool): seq<seq<int>>
  {
    (if ownUser then [[e.id]] else [])
    + (if e.authenticationUser.Some? then [[e.authenticationUser.value]] else [])
  }

  /** `postPersist`: a user and an authentication's user are reindexed only
      when the users index is on, one request of one id each; a learning
      material gets exactly one text-extraction request for its id whatever
      the gates say; indexable courses are batched; nothing is deleted. */
  lemma PersistEffects(e: Entity, usersEnabled: bool, curriculumEnabled: bool)
    ensures Payloads(PersistCalls(e, usersEnabled, curriculumEnabled), UserIndex)
      == if usersEnabled then UserIds(e, e.isUser) else []
    ensures Payloads(PersistCalls(e, usersEnabled, curriculumEnabled), TextExtraction)
      == if e.isLearningMaterial then [[e.id]] else []
    ensures Payloads(PersistCalls(e, usersEnabled, curriculumEnabled), CourseIndex)
      == if curriculumEnabled && e.indexableCourses.Some? then Chunk(e.indexableCourses.value, MaxCourses) else []
    ensures Deletes(PersistCalls(e, usersEnabled, curriculumEnabled)) == []
  {
    var calls := PersistCalls(e, usersEnabled, curriculumEnabled);
    PersistParts(e, usersEnabled, curriculumEnabled, UserIndex);
    IndexableCoursesPayloads(e, curriculumEnabled, UserIndex);
    assert Payloads(calls, UserIndex) == (if usersEnabled then UserIds(e, e.isUser) else []) + [] + [];
    PersistParts(e, usersEnabled, curriculumEnabled, TextExtraction);
    IndexableCoursesPayloads(e, curriculumEnabled, TextExtraction);
    assert Payloads(calls, TextExtraction) == [] + (if e.isLearningMaterial then [[e.id]] else []) + [];
    PersistParts(e, usersEnabled, curriculumEnabled, CourseIndex);
    IndexableCoursesPayloads(e, curriculumEnabled, CourseIndex);
    assert Payloads(calls, CourseIndex) == [] + [] + Payloads(IndexableCoursesCalls(e, curriculumEnabled), CourseIndex);
  }

  /** `postPersist` viewed by one kind of request. */
  lemma PersistParts(e: Entity, usersEnabled: bool, curriculumEnabled: bool, kind: RequestKind)
    ensures Payloads(PersistCalls(e, usersEnabled, curriculumEnabled), kind)
      == (if usersEnabled && kind == UserIndex then UserIds(e, e.isUser) else [])
         + (if e.isLearningMaterial && kind == TextExtraction then [[e.id]] else [])
         + Payloads(IndexableCoursesCalls(e, curriculumEnabled), kind)
    ensures Deletes(PersistCalls(e, usersEnabled, curriculumEnabled)) == []
  {
    Split4(OwnUserCalls(e, e.isUser, usersEnabled), AuthenticationCalls(e, usersEnabled),
      TextExtractionCalls(e), IndexableCoursesCalls(e, curriculumEnabled), kind);
    OwnUserPayloads(e, e.isUser, usersEnabled, kind);
    AuthenticationPayloads(e, usersEnabled, kind);
    TextExtractionPayloads(e, kind);
    IndexableCoursesPayloads(e, curriculumEnabled, kind);
  }

  lemma Split3(a: seq<Call>, b: seq<Call>, c: seq<Call>, kind: RequestKind)
    ensures Payloads(a + b + c, kind) == Payloads(a, kind) + Payloads(b, kind) + Payloads(c, kind)
    ensures Deletes(a + b + c) == Deletes(a) + Deletes(b) + Deletes(c)
  {
    PayloadsAppend(a + b, c, kind);
    PayloadsAppend(a, b, kind);
    DeletesAppend(a + b, c);
    DeletesAppend(a, b);
  }

  /** `postUpdate`: a user is reindexed unless its change set is exactly
      `examined` (and only when the users index is on); an authentication's
      user is reindexed whatever changed; no text extraction; indexable
      courses are batched; nothing is deleted. */
  lemma UpdateEffects(e: Entity, changedFields: seq<string>, usersEnabled: bool, curriculumEnabled: bool)
    ensures Payloads(UpdateCalls(e, changedFields, usersEnabled, curriculumEnabled), UserIndex)
      == if usersEnabled then UserIds(e, e.isUser && changedFields != ["examined"]) else []
    ensures Payloads(UpdateCalls(e, changedFields, usersEnabled, curriculumEnabled), TextExtraction) == []
    ensures Payloads(UpdateCalls(e, changedFields, usersEnabled, curriculumEnabled), CourseIndex)
      == if curriculumEnabled && e.indexableCourses.Some? then Chunk(e.indexableCourses.value, MaxCourses) else []
    ensures Deletes(UpdateCalls(e, changedFields, usersEnabled, curriculumEnabled)) == []
  {
    var calls := UpdateCalls(e, changedFields, usersEnabled, curriculumEnabled);
    UpdateParts(e, changedFields, usersEnabled, curriculumEnabled, UserIndex);
    IndexableCoursesPayloads(e, curriculumEnabled, UserIndex);
    assert Payloads(calls, UserIndex) == (if usersEnabled then UserIds(e, e.isUser && changedFields != ["examined"]) else []) + [];
    UpdateParts(e, changedFields, usersEnabled, curriculumEnabled, TextExtraction);
    IndexableCoursesPayloads(e, curriculumEnabled, TextExtraction);
    UpdateParts(e, changedFields, usersEnabled, curriculumEnabled, CourseIndex);
    IndexableCoursesPayloads(e, curriculumEnabled, CourseIndex);
    assert Payloads(calls, CourseIndex) == [] + Payloads(IndexableCoursesCalls(e, curriculumEnabled), CourseIndex);
  }

  /** `postUpdate` viewed by one kind of request. */
  lemma UpdateParts(e: Entity, changedFields: seq<string>, usersEnabled: bool, curriculumEnabled: bool, kind: RequestKind)
    ensures Payloads(UpdateCalls(e, changedFields, usersEnabled, curriculumEnabled), kind)
      == (if usersEnabled && kind == UserIndex then UserIds(e, e.isUser && changedFields != ["examined"]) else [])
         + Payloads(IndexableCoursesCalls(e, curriculumEnabled), kind)
    ensures Deletes(UpdateCalls(e, changedFields, usersEnabled, curriculumEnabled)) == []
  {
    var reindex := e.isUser && ReindexAfterUpdate(changedFields);
    Split3(OwnUserCalls(e, reindex, usersEnabled), AuthenticationCalls(e, usersEnabled),
      IndexableCoursesCalls(e, curriculumEnabled), kind);
    OwnUserPayloads(e, reindex, usersEnabled, kind);
    AuthenticationPayloads(e, usersEnabled, kind);
    IndexableCoursesPayloads(e, curriculumEnabled, kind);
  }

  /** The deletes that a list of at most one backend call holds. */
  lemma OptionalDelete(b: bool, c: Call, kind: RequestKind)
    requires !c.Dispatch?
    ensures Payloads(if b then [c] else [], kind) == []
    ensures Deletes(if b then [c] else []) == if b then [c] else []
  {
    if b {
      PayloadsSingle(c, kind);
    }
  }

  /** The part of `preRemove` before its session check, viewed by kind. */
  lemma RemoveHeadParts(e: Entity, usersEnabled: bool, kind: RequestKind)
    ensures Payloads(RemoveHeadCalls(e, usersEnabled), kind)
      == if usersEnabled && kind == UserIndex then UserIds(e, false) else []
    ensures Deletes(RemoveHeadCalls(e, usersEnabled))
      == (if e.isUser then [DeleteUser(e.id)] else []) + (if e.isCourse then [DeleteCourse(e.id)] else [])
  {
    var user := if e.isUser then [DeleteUser(e.id)] else [];
    var course := if e.isCourse then [DeleteCourse(e.id)] else [];
    Split3(user, AuthenticationCalls(e, usersEnabled), course, kind);
    OptionalDelete(e.isUser, DeleteUser(e.id), kind);
    OptionalDelete(e.isCourse, DeleteCourse(e.id), kind);
    AuthenticationPayloads(e, usersEnabled, kind);
  }

  /** The part of `preRemove` after its session check, viewed by kind. */
  lemma RemoveTailParts(e: Entity, curriculumEnabled: bool, kind: RequestKind)
    ensures Payloads(RemoveTailCalls(e, curriculumEnabled), kind)
      == Payloads(IndexableCoursesCalls(e, curriculumEnabled), kind)
    ensures Deletes(RemoveTailCalls(e, curriculumEnabled))
      == if e.isLearningMaterial then [DeleteLearningMaterial(e.id)] else []
  {
    var lm := if e.isLearningMaterial then [DeleteLearningMaterial(e.id)] else [];
    PayloadsAppend(lm, IndexableCoursesCalls(e, curriculumEnabled), kind);
    DeletesAppend(lm, IndexableCoursesCalls(e, curriculumEnabled));
    OptionalDelete(e.isLearningMaterial, DeleteLearningMaterial(e.id), kind);
    IndexableCoursesPayloads(e, curriculumEnabled, kind);
  }

  /** `preRemove` viewed by one kind of request. */
  lemma RemoveParts(e: Entity, usersEnabled: bool, curriculumEnabled: bool, kind: RequestKind)
    ensures Payloads(RemoveCalls(e, usersEnabled, curriculumEnabled), kind)
      == (if usersEnabled && kind == UserIndex then UserIds(e, false) else [])
         + (if e.isSession then [] else Payloads(IndexableCoursesCalls(e, curriculumEnabled), kind))
    ensures Deletes(RemoveCalls(e, usersEnabled, curriculumEnabled))
      == (if e.isUser then [DeleteUser(e.id)] else [])
         + (if e.isCourse then [DeleteCourse(e.id)] else [])
         + (if e.isSession then [DeleteSession(e.id)]
            else if e.isLearningMaterial then [DeleteLearningMaterial(e.id)] else [])
  {
    var rest := if e.isSession then [DeleteSession(e.id)] else RemoveTailCalls(e, curriculumEnabled);
    PayloadsAppend(RemoveHeadCalls(e, usersEnabled), rest, kind);
    DeletesAppend(RemoveHeadCalls(e, usersEnabled), rest);
    RemoveHeadParts(e, usersEnabled, kind);
    if e.isSession {
      PayloadsSingle(DeleteSession(e.id), kind);
    } else {
      RemoveTailParts(e, curriculumEnabled, kind);
    }
  }

  /** `preRemove`: users, courses, sessions and learning materials are
      deleted from their index with their own id, synchronously and never
      through the bus; an authentication's user is reindexed, never
      deleted; a session's delete is the last call, so none of its
      indexable courses is reindexed; otherwise indexable courses are
      batched as on persist; nothing is sent for text extraction. */
  lemma RemoveEffects(e: Entity, usersEnabled: bool, curriculumEnabled: bool)
    ensures Deletes(RemoveCalls(e, usersEnabled, curriculumEnabled))
      == (if e.isUser then [DeleteUser(e.id)] else [])
         + (if e.isCourse then [DeleteCourse(e.id)] else [])
         + (if e.isSession then [DeleteSession(e.id)]
            else if e.isLearningMaterial then [DeleteLearningMaterial(e.id)] else [])
    ensures Payloads(RemoveCalls(e, usersEnabled, curriculumEnabled), UserIndex)
      == if usersEnabled then UserIds(e, false) else []
    ensures Payloads(RemoveCalls(e, usersEnabled, curriculumEnabled), TextExtraction) == []
    ensures Payloads(RemoveCalls(e, usersEnabled, curriculumEnabled), CourseIndex)
      == if !e.isSession && curriculumEnabled && e.indexableCourses.Some?
         then Chunk(e.indexableCourses.value, MaxCourses) else []
    ensures e.isSession ==>
      var calls := RemoveCalls(e, usersEnabled, curriculumEnabled);
      |calls| > 0 && calls[|calls| - 1] == DeleteSession(e.id)
  {
    var calls := RemoveCalls(e, usersEnabled, curriculumEnabled);
    RemoveParts(e, usersEnabled, curriculumEnabled, UserIndex);
    IndexableCoursesPayloads(e, curriculumEnabled, UserIndex);
    assert Payloads(calls, UserIndex) == (if usersEnabled then UserIds(e, false) else []) + [];
    RemoveParts(e, usersEnabled, curriculumEnabled, TextExtraction);
    IndexableCoursesPayloads(e, curriculumEnabled, TextExtraction);
    RemoveParts(e, usersEnabled, curriculumEnabled, CourseIndex);
    IndexableCoursesPayloads(e, curriculumEnabled, CourseIndex);
    assert Payloads(calls, CourseIndex)
      == [] + (if e.isSession then [] else Payloads(IndexableCoursesCalls(e, curriculumEnabled), CourseIndex));
  }

  /** Regrouping a log extended part by part. */
  lemma AppendAssoc(a: seq<Call>, b: seq<Call>, c: seq<Call>)
    ensures a + (b + c) == a + b + c
  {
  }

  lemma AppendAssoc4(x: seq<Call>, a: seq<Call>, b: seq<Call>, c: seq<Call>, d: seq<Call>)
    ensures x + (a + b + c + d) == x + a + b + c + d
  {
    assert x + (a + b + c + d) == x + (a + b + c) + d;
    assert x + (a + b + c) == x + (a + b) + c;
    assert x + (a + b) == x + a + b;
  }

  lemma AppendAssoc3(x: seq<Call>, a: seq<Call>, b: seq<Call>, c: seq<Call>)
    ensures x + (a + b + c) == x + a + b + c
  {
    assert x + (a + b + c) == x + (a + b) + c;
    assert x + (a + b) == x + a + b;
  }

  // ---------------------------------------------------------------------
  // The listener itself.

  /** `IndexEntityChanges`: the two isEnabled() flags it consults (they may
      change between callbacks) and the log of calls it has made on the bus
      and on the backends. */
  class IndexEntityChanges {
    var usersIndexEnabled: bool
    var curriculumIndexEnabled: bool
    var calls: seq<Call>

    constructor (usersIndexEnabled: bool, curriculumIndexEnabled: bool)
      ensures this.usersIndexEnabled == usersIndexEnabled
      ensures this.curriculumIndexEnabled == curriculumIndexEnabled
      ensures calls == []
    {
      this.usersIndexEnabled := usersIndexEnabled;
      this.curriculumIndexEnabled := curriculumIndexEnabled;
      calls := [];
    }

    /** `$this->bus->dispatch($message)`. */
    method Dispatch(message: Message)
      modifies this`calls
      ensures calls == old(calls) + [Call.Dispatch(message)]
    {
      calls := calls + [Call.Dispatch(message)];
    }

    /** A synchronous `delete` on one of the index backends. */
    method Delete(call: Call)
      modifies this`calls
      ensures calls == old(calls) + [call]
    {
      calls := calls + [call];
    }

    method PostPersist(e: Entity)
      modifies this`calls
      ensures calls == old(calls) + PersistCalls(e, usersIndexEnabled, curriculumIndexEnabled)
    {
      if e.isUser {
        IndexUser(e.id);
      }
      ghost var own := calls;
      IndexAuthenticationUser(e);
      ghost var auth := calls;
      if e.isLearningMaterial {
        IndexLearningMaterial(e.id);
        Dispatch(LearningMaterialTextExtractionRequest([e.id]));
      }
      ghost var lm := calls;
      IndexIndexableCourses(e);
      assert own == old(calls) + OwnUserCalls(e, e.isUser, usersIndexEnabled);
      assert lm == auth + TextExtractionCalls(e);
      AppendAssoc4(old(calls), OwnUserCalls(e, e.isUser, usersIndexEnabled), AuthenticationCalls(e, usersIndexEnabled),
        TextExtractionCalls(e), IndexableCoursesCalls(e, curriculumIndexEnabled));
    }

    method PostUpdate(e: Entity, changedFields: seq<string>)
      modifies this`calls
      ensures calls == old(calls) + UpdateCalls(e, changedFields, usersIndexEnabled, curriculumIndexEnabled)
    {
      if e.isUser {
        if ReindexAfterUpdate(changedFields) {
          IndexUser(e.id);
        }
      }
      ghost var own := calls;
      IndexAuthenticationUser(e);
      if e.isLearningMaterial {
        IndexLearningMaterial(e.id);
      }
      IndexIndexableCourses(e);
      assert own == old(calls) + OwnUserCalls(e, e.isUser && ReindexAfterUpdate(changedFields), usersIndexEnabled);
      AppendAssoc3(old(calls), OwnUserCalls(e, e.isUser && ReindexAfterUpdate(changedFields), usersIndexEnabled),
        AuthenticationCalls(e, usersIndexEnabled), IndexableCoursesCalls(e, curriculumIndexEnabled));
    }

    method PreRemove(e: Entity)
      modifies this`calls
      ensures calls == old(calls) + RemoveCalls(e, usersIndexEnabled, curriculumIndexEnabled)
    {
      if e.isUser {
        Delete(DeleteUser(e.id));
      }
      IndexAuthenticationUser(e);
      if e.isCourse {
        Delete(DeleteCourse(e.id));
      }
      ghost var head := calls;
      assert head == old(calls) + RemoveHeadCalls(e, usersIndexEnabled);
      if e.isSession {
        Delete(DeleteSession(e.id));
        AppendAssoc(old(calls), RemoveHeadCalls(e, usersIndexEnabled), [DeleteSession(e.id)]);
        return;
      }
      if e.isLearningMaterial {
        Delete(DeleteLearningMaterial(e.id));
      }
      ghost var lm := calls;
      assert lm == head + (if e.isLearningMaterial then [DeleteLearningMaterial(e.id)] else []);
      IndexIndexableCourses(e);
      AppendAssoc(head, if e.isLearningMaterial then [DeleteLearningMaterial(e.id)] else [],
        IndexableCoursesCalls(e, curriculumIndexEnabled));
      AppendAssoc(old(calls), RemoveHeadCalls(e, usersIndexEnabled), RemoveTailCalls(e, curriculumIndexEnabled));
    }

    /** The step all three callbacks share for an `AuthenticationInterface`:
        reindex the user the authentication belongs to. */
    method IndexAuthenticationUser(e: Entity)
      modifies this`calls
      ensures calls == old(calls) + AuthenticationCalls(e, usersIndexEnabled)
    {
      if e.authenticationUser.Some? {
        IndexUser(e.authenticationUser.value);
      }
    }

    /** The step all three callbacks end with for an
        `IndexableCoursesEntityInterface`: reindex its courses. */
    method IndexIndexableCourses(e: Entity)
      modifies this`calls
      ensures calls == old(calls) + IndexableCoursesCalls(e, curriculumIndexEnabled)
    {
      if e.indexableCourses.Some? {
        IndexCourses(e.indexableCourses.value);
      }
    }

    method IndexUser(userId: int)
      modifies this`calls
      ensures calls == old(calls) + IndexUserCalls(usersIndexEnabled, userId)
    {
      if usersIndexEnabled {
        Dispatch(UserIndexRequest([userId]));
      }
    }

    /** One request per batch of at most MaxCourses course ids. */
    method IndexCourses(courseIds: seq<int>)
      modifies this`calls
      ensures calls == old(calls) + IndexCoursesCalls(curriculumIndexEnabled, courseIds)
    {
      if curriculumIndexEnabled {
        var batches := Chunk(courseIds, MaxCourses);
        for i := 0 to |batches|
          invariant calls == old(calls) + CourseRequests(batches[..i])
        {
          Dispatch(CourseIndexRequest(batches[i]));
          assert batches[..i + 1] == batches[..i] + [batches[i]];
        }
        assert batches[..|batches|] == batches;
      }
    }

    /** Learning-material indexing is switched off in the source: no call. */
    method IndexLearningMaterial(id: int)
      ensures calls == old(calls)
    {
    }
  }
}
