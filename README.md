# Ilios search-index listener and two relationship voters, in Dafny

This project models two parts of the Ilios learning-management application.

**The search-index change listener** (`IndexEntityChanges`). It is a Doctrine
lifecycle listener. On `postPersist`, `postUpdate` and `preRemove` it looks at
which interfaces the changed entity implements. It then dispatches index
requests to the message bus, or calls a search backend's `delete` directly:

- `UserIndexRequest` for a user, or for the user an authentication belongs to;
- `CourseIndexRequest` for the courses an entity exposes, in batches of at
  most `CourseIndexRequest::MAX_COURSES` ids;
- `LearningMaterialTextExtractionRequest` for a newly persisted learning
  material;
- `delete` / `deleteCourse` / `deleteSession` on the users, curriculum and
  learning-materials backends when a user, course, session or learning
  material is removed.

The model (`index_entity_changes.dfy`, module `EventListener`) is a class
whose field `calls` logs every outward call in the order it is made, as a
`Dispatch(message)` or one of the four backend deletes. The two `isEnabled()`
gates the listener reads are fields of the class. Each callback is a method.
Its `ensures` ties the new log to the old log followed by a specification
function of the entity and the gates (`PersistCalls`, `UpdateCalls`,
`RemoveCalls`). Lemmas then state what those functions do, viewed by kind of
request (`Payloads`) and by backend delete (`Deletes`). `array_chunk` is
modelled in `batching.dfy` (module `Batching`). It is proved to keep order,
to respect the size bound and to make ceil(N / size) batches.

Two blocks are word for word the same in all three callbacks: the
`AuthenticationInterface` reindex and the `IndexableCoursesEntityInterface`
reindex. The model writes each of them once, as the methods
`IndexAuthenticationUser` and `IndexIndexableCourses`.

**Two relationship voters** (`user_event_voter.dfy`,
`temporary_file_system_voter.dfy`, with shared types in `security.dfy`). They
are pure decision procedures over the token's user and the subject:

- `UserEvent` decides who may VIEW a user's calendar event;
- `TemporaryFileSystem` decides who may CREATE a temporary file system.

## Model

| member | source | states |
|---|---|---|
| `Batching.Chunk` | src/EventListener/IndexEntityChanges.php:140 | every batch of `array_chunk` is non-empty and holds at most `size` ids; every batch but the last holds exactly `size` |
| `Batching.ChunkFlatten` | src/EventListener/IndexEntityChanges.php:140-143 | the batches, concatenated in order, are exactly the input ids: nothing is lost, duplicated or reordered |
| `Batching.ChunkBounds` | src/EventListener/IndexEntityChanges.php:140 | the empty list gives no batch; k batches hold more than (k-1)·size ids and at most k·size |
| `Batching.ChunkCount` | src/EventListener/IndexEntityChanges.php:140 | `array_chunk` makes ceil(N / size) batches |
| `Batching.ChunkEmpty` | src/EventListener/IndexEntityChanges.php:140-143 | no batch (so no request) exactly when the id list is empty |
| `EventListener.CourseRequests` | src/EventListener/IndexEntityChanges.php:141-143 | one `CourseIndexRequest` per batch, the i-th carrying the i-th batch |
| `EventListener.IndexCoursesBatches` | src/EventListener/IndexEntityChanges.php:136-145 | with the curriculum index on: ceil(N / MAX_COURSES) requests, none over MAX_COURSES ids, whose ids in dispatch order are the course ids in input order, and none for an empty list; with it off: no call at all |
| `EventListener.FiftyFiveCourses` | src/EventListener/IndexEntityChanges.php:139-143 | 55 course ids give two requests, the first 50 ids and then the last 5 |
| `EventListener.PersistEffects` | src/EventListener/IndexEntityChanges.php:44-64 | on persist: a user and an authentication's user are each reindexed by one request carrying exactly their id, and only when the users index is on; a learning material gets exactly one text-extraction request for its id whatever the gates; courses are batched when the curriculum index is on; nothing is deleted |
| `EventListener.UpdateEffects` | src/EventListener/IndexEntityChanges.php:65-89 | on update: a user whose change-set keys are exactly `['examined']` is not reindexed, any other key list reindexes it (users index on); an authentication's user is always reindexed (users index on); no text extraction; courses batched; nothing deleted |
| `EventListener.RemoveEffects` | src/EventListener/IndexEntityChanges.php:95-123 | on removal: user, course, session and learning material are deleted from their backend with their own id, in source order, never through the bus; an authentication's user is reindexed, not deleted; a session's delete is the last call, so its indexable courses are not reindexed and no learning-material delete follows |
| `EventListener.PersistParts` | src/EventListener/IndexEntityChanges.php:44-64 | the persist log, viewed by one kind of request, is the user part, the text-extraction part and the course part, in that order; it holds no delete |
| `EventListener.UpdateParts` | src/EventListener/IndexEntityChanges.php:65-89 | the update log, viewed by one kind of request, is the filtered user part then the course part; it holds no delete |
| `EventListener.RemoveParts` | src/EventListener/IndexEntityChanges.php:95-123 | the removal log, viewed by kind, is the authentication's user then (unless a session) the courses; its deletes are user, course, then session or learning material |
| `EventListener.IndexEntityChanges.constructor` | src/EventListener/IndexEntityChanges.php:35-42 | a new listener has made no call and holds the two gates it is given |
| `EventListener.IndexEntityChanges.Dispatch` | src/EventListener/IndexEntityChanges.php:58 | a dispatch appends exactly that message to the log |
| `EventListener.IndexEntityChanges.Delete` | src/EventListener/IndexEntityChanges.php:100 | a backend delete appends exactly that call to the log |
| `EventListener.IndexEntityChanges.PostPersist` | src/EventListener/IndexEntityChanges.php:44-64 | the log grows by exactly `PersistCalls` of the entity and the current gates |
| `EventListener.IndexEntityChanges.PostUpdate` | src/EventListener/IndexEntityChanges.php:65-89 | the log grows by exactly `UpdateCalls` of the entity, its change-set keys and the gates |
| `EventListener.IndexEntityChanges.PreRemove` | src/EventListener/IndexEntityChanges.php:95-123 | the log grows by exactly `RemoveCalls`, including the early return after a session's delete |
| `EventListener.IndexEntityChanges.IndexAuthenticationUser` | src/EventListener/IndexEntityChanges.php:52-54 | an authentication's user is reindexed through `indexUser` |
| `EventListener.IndexEntityChanges.IndexIndexableCourses` | src/EventListener/IndexEntityChanges.php:61-63 | an entity's indexable courses go through `indexCourses` |
| `EventListener.IndexEntityChanges.IndexUser` | src/EventListener/IndexEntityChanges.php:125-130 | one `UserIndexRequest([id])` when the users index is on, no call otherwise |
| `EventListener.IndexEntityChanges.IndexCourses` | src/EventListener/IndexEntityChanges.php:136-145 | the loop dispatches one request per batch, in batch order, when the curriculum index is on, and nothing otherwise |
| `EventListener.IndexEntityChanges.IndexLearningMaterial` | src/EventListener/IndexEntityChanges.php:147-153 | learning-material indexing makes no call at all |
| `UserEventVoter.Supports` | src/RelationshipVoter/UserEvent.php:17-20 | the voter answers only VIEW on a user event |
| `UserEventVoter.VoteOnAttribute` | src/RelationshipVoter/UserEvent.php:28-67 | a token without a session user is denied; root is granted whatever the event; a published event the user owns is granted; a non-root user associated with the event's school, course or session is granted exactly when the event is published or owned; a non-root user without association is granted exactly when the event is both published and owned |
| `UserEventVoter.GrantMonotone` | src/RelationshipVoter/UserEvent.php:55-66 | adding ids to any of the user's seven association lists never turns a grant into a denial |
| `UserEventVoter.UnpublishedUnassociatedDenied` | src/RelationshipVoter/UserEvent.php:42-66 | a non-root user with no association never sees an unpublished event, even one it owns |
| `TemporaryFileSystemVoter.Supports` | src/RelationshipVoter/TemporaryFileSystem.php:19-22 | the voter answers only CREATE on a temporary file system |
| `TemporaryFileSystemVoter.VoteOnAttribute` | src/RelationshipVoter/TemporaryFileSystem.php:30-42 | a token without a session user is denied; root is granted; any other session user is granted exactly when it performs a non-learner function |
| `TemporaryFileSystemVoter.VoteIgnoresAttribute` | src/RelationshipVoter/TemporaryFileSystem.php:30-42 | the decision does not depend on the attribute asked |

## Left out

- The message bus is modelled as appending to the call log. Asynchronous, out-of-process, at-least-once delivery and the lack of ordering between jobs are not modelled.
- The search backends (`Curriculum`, `Users`, `LearningMaterials`, `Mesh`) are modelled only as two `isEnabled()` flags and the delete calls made on them. What a delete or an index request does to an index, including that repeating it changes nothing, is not modelled. The `Mesh` backend and the learning-materials `isEnabled()` are never consulted by the listener, so they do not appear.
- Errors thrown by `isEnabled()`, `delete`, `dispatch` or `array_chunk` are not modelled: the listener does not catch them, so they reach the caller unchanged. An authentication whose `getUser()` is null (a type error in `indexUser`) is not modelled either.
- Doctrine's change-set computation is not part of this model. The keys of the change set are an input of `PostUpdate`, in the order `array_keys` gives them.
- `getIndexableCourses()` is not part of this model. The model takes the ids of the courses it returns as an input list.
- `EventListener.MaxCourses`: src/Message/CourseIndexRequest.php is not part of this model, so the value of `MAX_COURSES` is not visible. The model uses 50. Every batching lemma except `FiftyFiveCourses` is stated for any positive batch size or for `MaxCourses` without using its value.
- Entity ids and event ids are modelled as integers. Nullable ids and PHP's loose comparison in `in_array` (null or numeric-string ids) are not modelled.
- `performsNonLearnerFunction()` and the seven association lists of a session user are inputs. How they are derived from roles and the database is not part of this model.
- The parent `AbstractVoter` and the framework's `vote()` (abstain on an unsupported subject) are not part of this model. The attribute names are those of the voters' permission constants.
- src/Repository/TermRepository.php, the controllers, entity managers, ORM mappings, interfaces, fixtures and tests hold no logic of this core and are not modelled.
