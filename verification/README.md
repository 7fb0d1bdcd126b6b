# Directory server and provisioning connector

A Dafny model of two programs that talk to each other: the in-memory test server of a user directory
(`cmd/test-server`) and the connector that syncs from it and provisions into it (`pkg/client`,
`pkg/connector`).

`dafny verify dfyconfig.toml` checks the whole project.

## What is modelled

**The server.** `Directory` gives the server's state as a value and every method and writing handler as a
function on it; the redundancy is kept (three user indexes, memberships on both sides, a count per group,
roles in two places). `Server` has the same methods on heap objects that the indexes share (`Stored`) and on
the arrays behind their lists (`Slices`), each proved to do what the function says; every stored list keeps
an array to itself. `Handlers` and `Startup` add the handlers and the seeding, and `Isolation` shows that
nothing done later reaches a copy that was handed out. `Invariants` and `ServerRuns` prove what holds over
every run of requests, and `Requests` what each of them does field by field. `Uuids` has the hex encoder and the
text form of UUIDs (section 4 of RFC 9562).

**The connector.** `Wire` has the client's data with the decoding and encoding of UUIDs, and each HTTP
request as one atomic step of the server. `Protocol` has the provisioning operations one request at a time,
with a program counter that holds what has been learnt. `Meaning` states in closed form what each operation
does; `Linearisation` shows that the requests compute it. On this rest `Retry` (cut off anywhere and run
again), `Serial` with `Interference` and `Commutation` (any interleaving equals the order of the deciding
requests), `Clashes` and `SeedClashes` (every combination excluded there does go wrong), `Linearisable` and
`Pairs` (which of them another order explains), `Effects` (memberships, flags, accounts), `Answers`,
`Discipline` (roles), `Subjects` and `Tags` (permissions), and `ConnectorRuns` with `Reachable` (everything
the connector can do to the seeded server). `Client` and `Connector` have the same operations as written,
with their loops, on the heap server.

**Sync.** `Sync` has the flattening into profile strings and the rebuilding of grants, `Builders` the loops that
do it, `Agreement`, `Typing` and `Access` the comparison of what sync reports with what provisioning decides and
with who holds what on the server. `Header` has the API key header on both sides.

A resource ID reaches the server as text and is parsed there; the connector compares printed IDs. Both are
modelled, so the statements speak of an ID "as the connector spells it" where the difference matters.
Server methods are atomic because the source holds one mutex through each of them.

## Where code and documentation differ

- The documentation and an error text of the connector say that every user holds exactly one role. The code
  keeps users at one role or at none: a seed user (`Reachable.SeedUserWithoutRole`) and every new account
  (`Discipline.NewAccountHasNoRole`) hold none. `Discipline.ExactlyOneRole` says when an operation leaves one.
- The client's group record reads `users_count`, the server writes `user_count`. The count does not reach the
  connector's decisions and is not decoded here.

## Model

| member | source | states |
|---|---|---|
| Retry.RetryConverges | pkg/connector/groups.go:114-228 | For every group, role and permission Grant and Revoke: after any number of attempts, each cut off after any request (the last write applied or not, its reply seen or lost), one more run leaves exactly the server state of a single uninterrupted run, and fails only as that one would. |
| Retry.CutResumes | pkg/connector/groups.go:126-171 | A cut attempt has made its requests: running on from the cut, on the server it left, is the uninterrupted run, and each request up to it has brought the operation nearer to its end. |
| Retry.CutAtTheEnd | pkg/connector/groups.go:126-171 | Cut after six requests or more, an attempt is done and has done all that the uninterrupted operation does. |
| Retry.AttemptsFollowEachOther | pkg/connector/groups.go:126-171 | Each attempt of a series starts on the server that the one before it left. |
| Retry.SetAccountConverges | pkg/connector/users.go:239-254 | Disabling or enabling an account converges under the same cuts, with the same answer. |
| Retry.CompleteMeans | pkg/connector/roles.go:102-184 | An uninterrupted operation, taken request by request, makes exactly one write, gives the answer and re-enables the account that the closed form of the operation says. |
| Retry.RerunFromPartway | pkg/connector/permissions.go:184-277 | From each of the three states a cut can leave (untouched, written, written and re-enabled) a rerun has the effect of the whole operation. |
| Repetition.OnceIsEnough | pkg/connector/groups.go:126-171 | A second execution finds nothing left to write and does not fail where the first did not. |
| Linearisation.UndecidedStep | pkg/connector/groups.go:126-171 | Each request before the deciding one writes nothing and what the operation has learnt from it is true; the deciding request makes the whole write, promises the answer and owes at most one re-enabling. |
| Linearisation.DecidedStep | pkg/connector/connector.go:82-93 | After its deciding request an operation only enables the account it owes, never fails, and keeps its promised answer. |
| Linearisation.ReEnableSettles | pkg/connector/connector.go:82-93 | After the re-enabling decision, enabling what is still owed has the same effect as enabling the principal outright if the setting is on, and nothing is owed if it is off. |
| Linearisation.FirstBasicIsFloor | pkg/connector/roles.go:192-203 | The Basic role that the client picks from the decoded list is the first STANDARD role named Basic of the server. |
| Commutation.WriteCommutes | pkg/connector/connector.go:82-93 | Every write commutes with enabling accounts, so a re-enabling may come at any later time. |
| Commutation.AnswerIgnoresEnabling | pkg/connector/connector.go:82-93 | No answer depends on which accounts are enabled. |
| Serial.SerialEquivalence | pkg/connector/groups.go:126-171 | Any interleaving, request by request, of provisioning operations of which no two clash ends in the state of running them one at a time in the order of their deciding requests; each stands in that order once, fails exactly if it fails there, and gives the very answer it gives there if no other may make its change for it. Role grants clash only with revokes of another role of the same user, and permission operations only with a different change to the same permission. |
| Serial.TurnsComplete | pkg/connector/groups.go:126-171 | Six turns in a row take an operation to its end from wherever it stood, as it would run alone. |
| Serial.SerialAtEveryMoment | pkg/connector/permissions.go:191-231 | At every moment of such an interleaving the copies agree, enabling the accounts still owed gives the serial state of the operations that have decided, and each of those has the answer of that serial run coming. |
| Serial.OrderRespectsTime | pkg/connector/groups.go:151-171 | An operation that was done before another made its first request comes before it in the serial order. |
| Interference.WriteIsHarmless | pkg/connector/roles.go:115-142 | A write leaves a non-clashing operation with everything it has read and depends on: the roles, the subjects and the membership are as they were, or are what the operation itself is about to make them. |
| Interference.KnowledgeSurvives | pkg/connector/permissions.go:191-209 | What an operation has learnt stays true as long as the facts it depends on are kept in that sense. |
| Interference.MembershipWriteIsHarmless | cmd/test-server/state.go:302-343 | A membership write changes the place of no other user in any group and nobody's place in another group. |
| Clashes.ClashIsReal | pkg/connector/permissions.go:184-277 | Every clash is real: two clashing operations that both find something to do have an interleaving whose state or answers are not those of the order of their deciding requests. |
| Clashes.OverlapLosesTheFirst | pkg/connector/permissions.go:222-226 | Two changes to one permission for different users, grants or revokes, that overlap both answer that they applied, yet the first is lost; after either serial order both stand. |
| Clashes.StaleReadingBreaksTheOrder | pkg/connector/permissions.go:191-209 | A grant and a revoke of one permission for one user, of which one reads the permission before the other writes and its user after it, end, up to enabled flags, as in the other order, not as in the order of their deciding requests. |
| Clashes.GrantInsideRevokeIsLost | pkg/connector/roles.go:166-183 | A role granted between the reads and the write of a revoke of the same user is overwritten by the fallback role although both answer that they applied; in either serial order the user would hold it. |
| Clashes.RefusalComesLate | pkg/connector/roles.go:166-176 | A revoke that cannot fall back and looks that up only after a grant is refused, although by then there is nothing left to revoke. |
| Clashes.ChangeKeepsOthers | pkg/connector/permissions.go:211-226 | A change to the subjects keeps every other user where it is. |
| Linearisable.Linearisability | pkg/connector/permissions.go:184-277 | Taking an operation's place in the order at the request that settles its answer: any interleaving of provisioning operations of which no two clash hard ends in the state of running them one at a time in that order, each standing in it once and answering as there. A grant and a revoke of one permission for one user, and a role grant beside a revoke that cannot fall back, are included. |
| Linearisable.LinearOrderRespectsTime | pkg/connector/permissions.go:191-231 | An operation that was done before another made its first request comes before it in that order too. |
| Linearisable.BoundFollows | pkg/connector/permissions.go:203-209 | An operation that read the permission with its change made, or that found the role held and has no fallback, writes nothing at its next request and gives the answer that was settled before it. |
| Linearisable.UnderWayBlocks | pkg/connector/permissions.go:191-217 | Between the reads and the write of a change still to be made, the opposite change for the same user finds nothing to do. |
| Pairs.PairHasOrder | pkg/connector/permissions.go:184-277 | Whatever the interleaving of two operations that do not clash hard, the final state and both answers are those of one of the two orders. |
| Pairs.HardClashIsReal | pkg/connector/roles.go:144-183 | Two operations that clash hard and both find something to do have an interleaving that ends in the state of neither order: changes to one permission for two users, and a role grant beside a revoke with a fallback. |
| Pairs.OrderIffNoHardClash | pkg/connector/permissions.go:184-277 | Of two clashing operations that both find something to do, one of the two orders explains every interleaving if and only if they do not clash hard. |
| SeedClashes.PermissionClashesAtSeed | cmd/test-server/seeds.go:201-215 | On the seeded server two grants, a grant and a revoke for different users, and a grant and a revoke for one user clash and both find something to do. |
| SeedClashes.RoleClashesAtSeed | cmd/test-server/seeds.go:136-157 | On the seeded server a role grant clashes with a revoke that applies, and with one that cannot fall back. |
| Requests.EditRequest | cmd/test-server/handlers.go:123-145 | An edit succeeds exactly for the ID of a live user; then name, email, permissions and flag are each the given value, or the old one if it is empty or absent, and every other field, user and table is as before. |
| Requests.CreateRequest | cmd/test-server/handlers.go:94-120 | A creation is refused exactly without username or password; otherwise the new record has each field as given, the username for an absent email and 16 for absent permissions, stands last in the list and in the All Users row, and nothing else changes. |
| Requests.DeleteRequest | cmd/test-server/handlers.go:148-159 | A deletion succeeds exactly for the ID of a live user and takes that user out of the indexes, the list, the role rows and the member rows; an unknown ID changes nothing. |
| Requests.SetEnabledRequests | cmd/test-server/handlers.go:162-181 | The enable and disable requests succeed exactly for the ID of a live user and set that one flag. |
| Requests.AddMemberRequests | cmd/test-server/handlers.go:204-230 | An addition is forbidden exactly for a fixed group, not found exactly when group or user is missing otherwise, and else appends the user to the row and the group to the user's list unless they are there. |
| Requests.RemoveMemberRequests | cmd/test-server/handlers.go:233-257 | A removal has the same refusals, and takes the user out of the row and the group out of the user's list. |
| Requests.SetRolesRequests | cmd/test-server/handlers.go:280-298 | A role PUT succeeds exactly if the user and all roles exist; then the user's row is the list sent and the record names the roles in that order, each by its own name. |
| Requests.UpdatePermissionRequests | cmd/test-server/handlers.go:317-335 | A permission PUT succeeds exactly if the permission exists, and replaces name, actions, objects and subjects, each by what was sent, and nothing else. |
| Requests.RunIsOneByOne | cmd/test-server/handlers.go:94-335 | A run of requests makes each on the server that the one before it left. |
| Effects.GroupGrantEffect | pkg/connector/groups.go:114-174 | A membership grant fails exactly when group or user is missing or the group is fixed and the user not listed in it, and then changes nothing; otherwise the memberships afterwards are the old ones and this one. |
| Effects.GroupRevokeEffect | pkg/connector/groups.go:176-228 | A membership revoke applies exactly to listed members of groups that are not fixed, and removes exactly that membership; any other answer changes nothing. |
| Effects.GrantEnablesPrincipal | pkg/connector/connector.go:82-93 | Provisioning disables nobody and enables exactly the principal of a grant that did not fail, if the setting is on. |
| Answers.MembershipReplies | cmd/test-server/handlers.go:204-257 | Both membership requests refuse a malformed ID, a fixed group and a missing group or user, each with its status and in this order. |
| Answers.GroupAnswers | pkg/connector/groups.go:114-228 | The answer of a group Grant and Revoke in every case: each refusal of the server with its status, and whether the principal is listed in the group. |
| Answers.RoleGrantAnswers | pkg/connector/roles.go:102-142 | The answer of a role Grant in every case. |
| Answers.RoleRevokeAnswers | pkg/connector/roles.go:144-203 | The answer of a role Revoke in every case; the fallback is the first STANDARD role named Basic of the list, without one it refuses, and it refuses to revoke that one. |
| Effects.AccountSwitched | pkg/connector/users.go:239-254 | Switching an account applies exactly when the user exists, and changes exactly that user's flag; otherwise it passes on the server's refusal. |
| Effects.AccountOpened | pkg/connector/users.go:206-216 | Opening an account adds one enabled user at the end of the list, with the next ID, the email as username, Basic permissions, All Users as its one group, and no role. |
| ServerRuns.RunKeepsInv | cmd/test-server/state.go:100-121 | Over every run of requests the three user indexes, both sides of every membership, the counts, both role copies and the permission index agree, while the counter is below 16^12. |
| Invariants.HandleKeepsInv | cmd/test-server/handlers.go:94-335 | Every writing handler, with any arguments, keeps all copies in agreement. |
| Invariants.CreateUserKeepsInv | cmd/test-server/state.go:171-195 | Creating a user enters it into every index and the All Users group without breaking any agreement. |
| Invariants.DeleteUserKeepsInv | cmd/test-server/state.go:197-213 | Deleting a user removes every copy of it and leaves no dangling mention. |
| Invariants.AddGroupMemberKeepsInv | cmd/test-server/state.go:302-322 | Adding a member keeps the group row and the user's list mirror images without duplicates. |
| Invariants.RemoveGroupMemberKeepsInv | cmd/test-server/state.go:325-343 | Removing a member from a group whose membership is not fixed keeps them mirror images. |
| Invariants.SetUserRolesKeepsInv | cmd/test-server/state.go:366-385 | Assigning roles keeps the edge table and the user's role list equal, each naming existing roles. |
| Invariants.NextUuidIsFresh | cmd/test-server/state.go:175-177 | The UUID about to be handed out is in no use while the counter is below 16^12. |
| ServerRuns.CountsAddUp | cmd/test-server/state.go:428-432 | The member counts over all groups add up to the lengths of the group lists over all users. |
| ServerRuns.CountIsCardinality | cmd/test-server/state.go:428-432 | A group's count is the number of users whose own list names the group. |
| ServerRuns.CountIsListedMembers | cmd/test-server/state.go:284-299 | A group's count is the number of users its member list returns. |
| ServerRuns.MembershipWritesAreEdgeWrites | cmd/test-server/state.go:302-343 | Adding and removing a member add and remove exactly one (group, user) edge. |
| ServerRuns.AllUsersIsEveryone | cmd/test-server/state.go:192 | In every state reachable through the handlers the All Users row holds exactly the live users, each once. |
| ServerRuns.MembershipGuardIsStable | cmd/test-server/handlers.go:220-224 | Whether a group is fixed never changes, so asking first and adding in a second call is sound whatever happens in between. |
| ServerRuns.IssuedIdsAreConsecutive | cmd/test-server/state.go:175-176 | The user IDs handed out over a run are consecutive, so none is handed out twice, not even after deletions. |
| ServerRuns.IssuedUuidsDistinct | cmd/test-server/state.go:444-462 | The UUIDs handed out over a run are pairwise distinct exactly when at most 16^12 of them are handed out. |
| ServerRuns.IssuedUuidsAreNew | cmd/test-server/seeds.go:189 | While the counter is below 16^12 a run hands out no UUID that a user or group already has, seeds included. |
| ServerRuns.DeleteUserForgets | cmd/test-server/state.go:204-210 | After a deletion no index, role row or member row mentions the user. |
| ServerRuns.DeleteUserKeepsOthers | cmd/test-server/state.go:207-210 | A deletion leaves every other user, with its roles and its memberships, as it was. |
| ServerRuns.DeleteUserKeepsOrder | cmd/test-server/state.go:207 | The user list after a deletion is the old one with that user cut out. |
| ServerRuns.RoleCopiesAgree | cmd/test-server/state.go:378-383 | Entry by entry the role list on a user equals the edge table and carries the name of an existing role. |
| ServerRuns.SetRolesAllOrNothing | cmd/test-server/state.go:366-385 | A role assignment succeeds exactly when the user and every named role exist; then both copies hold the list, and otherwise nothing changes. |
| Uuids.Pad12 | cmd/test-server/state.go:454-462 | The digit loop computes the last twelve base-16 digits. |
| Uuids.HexFixedDenotes | cmd/test-server/state.go:454-462 | Those digits denote the number modulo 16^12, so below 16^12 they are its exact encoding. |
| Uuids.FormatUuidCollision | cmd/test-server/state.go:449-452 | Two numbers give the same UUID exactly when they agree modulo 16^12. |
| Uuids.FormatUuidIsCanonical | cmd/test-server/state.go:449-452 | A generated UUID is in the canonical text form of section 4 of RFC 9562: the fixed first 24 characters, and twelve digits that denote the number modulo 16^12. |
| Uuids.ParseOfRender | pkg/client/models.go:104-108 | Parsing gives back every UUID value from its text. |
| Uuids.RenderOfParse | pkg/client/models.go:104-108 | A text comes back unchanged from parsing and printing exactly when it is canonical. |
| Uuids.RenderMeans | pkg/client/models.go:104-108 | The text of a UUID is its 32 lower-case digits in groups of 8, 4, 4, 4 and 12. |
| Uuids.ParseMeans | vendor/github.com/google/uuid/uuid.go:68-121 | The client's parser accepts exactly the hyphenated form, plain, after "urn:uuid:" in any case or between two further bytes, and 32 bare digits, and reads off the digits. |
| Server.State.CreateUser | cmd/test-server/state.go:171-195 | The new object under the three indexes and in the All Users row is the specified creation; the indexes still agree exactly when its UUID and ID were free. |
| Server.State.DeleteUser | cmd/test-server/state.go:197-213 | On shared objects, and for any iteration order of the member map, deletion is the specified removal. |
| Server.State.SetUserEnabled | cmd/test-server/state.go:215-224 | A write through the ID index shows through every index. |
| Server.State.UpdateUser | cmd/test-server/state.go:226-247 | Absent and empty fields of an edit change nothing, the others are set, in all indexes at once. |
| Server.State.AddGroupMember | cmd/test-server/state.go:302-322 | Group row, user list and counts change together, and a repeated addition changes nothing. |
| Server.State.RemoveGroupMember | cmd/test-server/state.go:325-343 | Group row, user list and counts change together, and a repeated removal changes nothing. |
| Server.State.SetUserRoles | cmd/test-server/state.go:366-385 | Either both role copies are replaced, or an unknown user or role leaves the state untouched. |
| Server.State.UpdatePermission | cmd/test-server/state.go:407-419 | Name, actions, objects and subjects of one permission are replaced together. |
| Server.State.RecomputeGroupCounts | cmd/test-server/state.go:428-432 | Every group object's count becomes the length of its row. |
| Server.State.DropFromMemberRows | cmd/test-server/state.go:208-210 | The loop over the member map removes the user from every row whatever the order of keys. |
| Server.State.ListUsers | cmd/test-server/state.go:141-149 | The listed copies are the live users in list order. |
| Server.State.ListGroupMembers | cmd/test-server/state.go:284-299 | The listed copies are the row's live users in row order; a missing group is reported. |
| Server.State.GetUserByUUID | cmd/test-server/state.go:151-159 | Lookup by UUID finds the same object as the snapshot. |
| Server.State.GetUserByID | cmd/test-server/state.go:161-169 | Lookup by ID finds the same object as the snapshot. |
| Server.State.ListGroups | cmd/test-server/state.go:249-258 | Every group is listed with the count of its row. |
| Server.State.GetGroupByID | cmd/test-server/state.go:260-268 | A found group is among the counted ones and comes with its count. |
| Server.State.GroupMembershipFixed | cmd/test-server/state.go:274-282 | Reports a fixed group exactly when the group exists and is fixed. |
| Server.State.ListRoles | cmd/test-server/state.go:345-353 | All roles in list order. |
| Server.State.GetUserRoles | cmd/test-server/state.go:355-362 | The user's row of the edge table, or not found. |
| Server.State.ListPermissions | cmd/test-server/state.go:387-395 | All permissions in list order. |
| Server.State.GetPermission | cmd/test-server/state.go:397-405 | The stored permission, or not found. |
| Server.State.UserWritten | cmd/test-server/state.go:107-109 | One user object written through any index leaves the indexes in agreement and changes that user's record alone in the view of the users. |
| Server.State.SeedUsers | cmd/test-server/seeds.go:179-188 | The seeding loop files every user under its UUID and ID, in order, with its role row. |
| Server.State.SeedGroups | cmd/test-server/seeds.go:122-127 | The seeding loop files every group under its UUID and ID, in order. |
| Server.State.SeedEdges | cmd/test-server/seeds.go:189-260 | Counter, member table, counts and permissions of the seed. |
| Startup.NewState | cmd/test-server/state.go:123-139 | A fresh server is in the seed state, and that state satisfies every invariant. |
| Seeds.SeedSatisfiesInv | cmd/test-server/seeds.go:69-261 | The seed data satisfies every invariant. |
| Handlers.AddMember | cmd/test-server/handlers.go:204-230 | A fixed group answers Forbidden, a missing group or user NotFound, and otherwise the member is added. |
| Handlers.RemoveMember | cmd/test-server/handlers.go:233-256 | A fixed group answers Forbidden, a missing group or user NotFound, and otherwise the member is removed. |
| Handlers.CreateAccount | cmd/test-server/handlers.go:94-120 | An empty username or password is refused; an absent email defaults to the username and absent permissions to 16. |
| Handlers.EditUser | cmd/test-server/handlers.go:123-145 | The edit is applied or the user is reported missing. |
| Handlers.RemoveUser | cmd/test-server/handlers.go:148-159 | The user is deleted or reported missing. |
| Handlers.SetEnabled | cmd/test-server/handlers.go:162-181 | The flag is set and the changed record returned, or the user is reported missing. |
| Handlers.UpdateUserRoles | cmd/test-server/handlers.go:280-298 | The roles are replaced or an unknown user or role is reported. |
| Handlers.ReplacePermission | cmd/test-server/handlers.go:317-335 | The body replaces the stored permission or the permission is reported missing. |
| Handlers.ServeAll | cmd/test-server/state.go:98-121 | The shared objects and arrays of the server go through any run of requests exactly as the value state does, with every index, copy and count in agreement after each, as long as the user counter ends below 16^12. |
| Slices.DeleteAll | cmd/test-server/state.go:207-210 | In-place compaction keeps the other entries in order at the front of the same array and zeroes what the shortened slice leaves behind. |
| Slices.Append | cmd/test-server/state.go:316 | Appending writes in place when there is capacity and otherwise moves to a new array. |
| Slices.CompactionShows | cmd/test-server/state.go:339-340 | Compacting an array changes what an earlier slice of it shows exactly when the removed entry was in it. |
| Stored.StoredUser.Copy | cmd/test-server/state.go:421-426 | A copied user reads as the stored one and has two arrays of its own. |
| Stored.StoredPermission.Copy | cmd/test-server/state.go:434-440 | A copied permission reads as the stored one and has three arrays of its own. |
| Server.State.AppendMember | cmd/test-server/state.go:316 | Appending to a stored row, in place or into a new array, changes that row alone and keeps every stored list in an array of its own. |
| Server.State.ShrinkMember | cmd/test-server/state.go:339 | Compacting a stored row in place changes that row alone, and what the old slice of it shows is the compaction with zeroes behind it. |
| Server.State.AppendGroup | cmd/test-server/state.go:318 | Appending to a user's own list changes that list alone. |
| Server.State.ShrinkGroups | cmd/test-server/state.go:340 | Compacting a user's own list in place changes that list alone. |
| Server.State.RoleRefsOf | cmd/test-server/state.go:379-383 | The loop appends one reference per role, in order, with the name of the role. |
| Isolation.ListUsersThenServe | cmd/test-server/state.go:141-149 | The listed users read the same after any run of requests, although the server compacts and extends its own arrays in place. |
| Isolation.GetUserThenServe | cmd/test-server/state.go:161-169 | A user found by ID reads the same after any run of requests, although the server compacts and extends its own arrays in place. |
| Isolation.ListMembersThenServe | cmd/test-server/state.go:284-299 | The listed members of a group read the same after any run of requests, although the server compacts and extends its own arrays in place. |
| Isolation.GetRolesThenServe | cmd/test-server/state.go:355-362 | The listed roles of a user read the same after any run of requests, although the server compacts and extends its own arrays in place. |
| Isolation.ListPermissionsThenServe | cmd/test-server/state.go:387-395 | The listed permissions read the same after any run of requests, although the server compacts and extends its own arrays in place. |
| Isolation.GetPermissionThenServe | cmd/test-server/state.go:397-405 | A permission found by UUID reads the same after any run of requests, although the server compacts and extends its own arrays in place. |
| Isolation.KeepRowThenRemove | cmd/test-server/state.go:339-340 | Without the clone a reader would see the next removal: a stored row handed out as it is changes under RemoveGroupMember exactly when the user was a member. |
| Isolation.SetRolesThenReuse | cmd/test-server/state.go:378 | A caller that goes on writing to the list it passed does not reach the stored roles. |
| Isolation.SetPermissionThenReuse | cmd/test-server/state.go:414-417 | Nor the stored lists of a permission. |
| Connector.Connector.GrantMembership | pkg/connector/groups.go:114-174 | The loop over the members, the POST and the re-enabling do to the server what the protocol of the operation does, with the same answer. |
| Connector.Connector.RevokeMembership | pkg/connector/groups.go:176-228 | The isMember loop and the DELETE do what the protocol does. |
| Connector.Connector.GrantRole | pkg/connector/roles.go:102-145 | Reads, check, single-role PUT and re-enabling do what the protocol does. |
| Connector.Connector.RevokeRole | pkg/connector/roles.go:147-184 | Reads, check, fallback lookup, refusal and PUT do what the protocol does. |
| Connector.Connector.BasicRoleUuid | pkg/connector/roles.go:192-203 | The loop returns the first STANDARD role named Basic, or fails. |
| Connector.Connector.GrantPermission | pkg/connector/permissions.go:184-234 | Reads, subject search, whole-body PUT and re-enabling do what the protocol does. |
| Connector.Connector.RevokePermission | pkg/connector/permissions.go:236-277 | Reads, subject search, removal and whole-body PUT do what the protocol does. |
| Connector.Connector.ReEnableUserIfNeeded | pkg/connector/connector.go:82-93 | Enables the account only if it was read as disabled and the setting is on, and reports a failure to. |
| Connector.Connector.SetAccount | pkg/connector/users.go:239-254 | Disabling sends one request and checks the returned flag. |
| Connector.Connector.OpenAccount | pkg/connector/users.go:190-216 | A profile without a text under email or name, or no password, fails before anything is sent; otherwise account creation sends the email as username with Basic permissions. |
| Client.GetUserDetails | pkg/client/client.go:81-94 | The decoded user, or the handler's refusal. |
| Client.GetGroupMembers | pkg/client/client.go:224-243 | The decoded member list, or the handler's refusal. |
| Client.GetPermissionDetails | pkg/client/client.go:300-317 | The decoded permission, or the handler's refusal. |
| Client.UpdateUserRoles | pkg/client/client.go:130-144 | The body always names exactly one role. |
| Client.UpdatePermission | pkg/client/client.go:319-341 | The body carries name, actions, rewritten objects and subjects of the whole permission. |
| Client.CreateUserGroupMembership | pkg/client/client.go:264-279 | One POST for one membership. |
| Client.DeleteUserGroupMembership | pkg/client/client.go:245-262 | One DELETE for one membership. |
| Client.SetUserEnabled | pkg/client/client.go:176-203 | One PUT of the flag, which takes effect even if the reply does not decode. |
| Repetition.ObjectsRoundTrip | pkg/client/models.go:104-108 | What the client writes as subjects or objects it reads back. |
| Repetition.PutPermissionReadBack | pkg/client/client.go:319-341 | After the PUT the permission reads back as the body with its tags rewritten, and nothing else on the server has changed. |
| Reading.MemberListRead | pkg/connector/groups.go:136-149 | Searching the member list by printed ID finds the principal exactly when it is a member whose resource ID is spelled as the connector spells it. |
| Reading.UserDetailsRead | cmd/test-server/handlers.go:76-91 | The user read answers exactly when the path names a live user, with that user's record. |
| Subjects.PermissionAnswers | pkg/connector/permissions.go:184-273 | Grant and Revoke refuse a principal exactly if its type is not "user"; each further refusal has its case, and then they answer by whether the user is a subject; a failure writes nothing. |
| Subjects.PermissionEffect | pkg/connector/permissions.go:211-226 | An applied grant appends the user's entry and an applied revoke drops the user's entries; other subjects, container-wide ones included, stay in order, name, actions and bookkeeping stay, UUIDs are normalised and tags rewritten once, and any other answer leaves every permission as it was. |
| Subjects.GrantThenRevoke | pkg/connector/permissions.go:184-277 | Grant then Revoke gives back the subject list of a user who was no subject, in its normal form: unchanged exactly when its UUIDs were canonical. |
| Subjects.RoundTripNormalises | cmd/test-server/state.go:72-76 | A trip to the client and back turns an absent UUID into the nil UUID and any other spelling into the canonical one, entry by entry. |
| Subjects.NormalForm | pkg/client/models.go:104-108 | Normalisation is idempotent and leaves exactly the canonical and the unparsable nonempty UUIDs alone. |
| Subjects.HasPermissionMeans | pkg/connector/permissions.go:201-209 | The client's subject check holds exactly when a stored subject's normal UUID is the user's. |
| Subjects.WithoutSubjectMembers | pkg/connector/permissions.go:267-269 | A revoke drops every entry of the user's UUID and no other. |
| Tags.ParseTagNames | pkg/client/client_helper.go:44-51 | The in-place loop rewrites exactly the names of the Tag objects. |
| Tags.RewrittenTimes | pkg/client/client_helper.go:44-51 | Rewriting k times turns the first k colons into commas. |
| Tags.CommasAt | pkg/client/client_helper.go:47 | Position by position: a colon becomes a comma exactly when fewer than k colons stand before it, and every other character stays. |
| Tags.RewriteIdempotent | pkg/client/client_helper.go:44-51 | Rewriting twice equals rewriting once exactly on names with at most one colon. |
| Tags.ObjectAfterUpdates | pkg/client/client.go:322-327 | After k updates an object keeps its type, has its normal UUID, and only a Tag's name has changed, in its first k colons. |
| Tags.ObjectsAfterRun | pkg/connector/permissions.go:222-273 | Over any grants and revokes on one permission its objects are rewritten once per applied operation, and its name and actions stay. |
| Sync.RolesSurviveTheProfile | pkg/connector/users.go:67-108 | A user's profile rebuilds one grant per role, in order: the slug "assigned" on the role, to the user; and none for a user without roles. |
| Sync.SubjectsSurviveTheProfile | pkg/connector/permissions.go:98-160 | A permission's profile rebuilds one grant per user subject and one per group subject, in order, for IDs that are nonempty and free of commas. |
| Sync.SubjectGrantsMean | pkg/connector/permissions.go:98-123 | The grant of a user subject is of slug "assigned" to a principal of type "user" and expands to nothing; that of a group subject is to a principal of type "group" and expands to "group:", the ID and ":member". |
| Sync.UserResourceMeans | pkg/connector/users.go:85-108 | A user resource has the printed ID under type "user", and in its profile the UUID, login, email and, for a user with roles, the role UUIDs in order. |
| Sync.PermissionResourceMeans | pkg/connector/permissions.go:155-170 | A permission's profile has its name, its UUID, its actions in one line and, where there are any, the IDs of the user and of the group subjects in order. |
| Sync.ResolveInOrder | pkg/connector/permissions.go:135-153 | Two subject lists one after the other resolve to their IDs one after the other. |
| Sync.ResolveOne | pkg/connector/permissions.go:135-153 | One subject resolves to one user ID, to one group ID, to an error or, for any other type, to nothing. |
| Sync.ResolveMeans | pkg/connector/permissions.go:138-153 | Resolving fails exactly when some user or group subject is unknown; otherwise it yields the IDs of exactly those subjects, all of which survive the profile. |
| Sync.ListMeans | pkg/connector/permissions.go:68-76 | Building the list fails exactly when some permission has an unknown subject, and otherwise yields one resource per permission in order. |
| Text.SplitJoinRoundTrip | pkg/connector/permissions.go:155-160 | Splitting the joined string gives back the list exactly for nonempty lists of comma-free strings. |
| Text.JoinMeans | pkg/connector/permissions.go:155-160 | Joining puts the separator between the parts and nowhere else. |
| Text.SpacesAre | cmd/test-server/handlers.go:44 | White space, as the header parser trims it, is exactly the 25 code points of the White_Space property. |
| Text.AtoiOfItoa | pkg/connector/groups.go:137 | A printed ID parses back within the range of Go's int. |
| Text.AtoiMeans | cmd/test-server/handlers.go:77 | A text is read as a number exactly if it is an optional sign, any zeros and the printed digits of that number, within 64 bits; every other text is refused. |
| Text.ItoaMeans | pkg/connector/groups.go:137 | Printed IDs are decimal: digit by digit, with a minus sign in front of negative numbers. |
| Text.ItoaInjective | pkg/connector/groups.go:137-138 | Comparing printed IDs compares IDs. |
| Builders.ParseIntoUserResource | pkg/connector/users.go:85-108 | The role loop fills the profile field only for users with roles. |
| Builders.UserBuilderGrants | pkg/connector/users.go:67-83 | The loop over the split field appends one grant per piece. |
| Builders.UserBuilderList | pkg/connector/users.go:39-54 | One resource per user, in order. |
| Builders.GroupBuilderGrants | pkg/connector/groups.go:63-81 | One member grant per listed user, in order. |
| Builders.ParseIntoPermissionResource | pkg/connector/permissions.go:125-182 | The subject loop resolves users and groups, stops at the first unknown UUID, and fills only the fields of nonempty lists. |
| Builders.PermissionBuilderList | pkg/connector/permissions.go:34-77 | Three reads, two indexes and one resource per permission, as specified for the server state. |
| Builders.PermissionBuilderGrants | pkg/connector/permissions.go:98-123 | User grants, then group grants that expand to the group's member entitlement. |
| Builders.IndexUsers | pkg/connector/permissions.go:53-56 | The index holds the last user of each UUID. |
| Builders.IndexGroups | pkg/connector/permissions.go:63-66 | The index holds the printed ID of the last group of each UUID. |
| Agreement.GroupSyncAgrees | pkg/connector/groups.go:63-81 | For every existing group and any principal ID, sync reports the slug "member" on the group for the user exactly when Grant answers AlreadyExists and exactly when Revoke does not answer AlreadyRevoked. |
| Agreement.RoleSyncAgrees | pkg/connector/roles.go:115-168 | For every live user and any role ID, sync reports the assignment exactly when Grant answers AlreadyExists and exactly when Revoke does not answer AlreadyRevoked. |
| Access.PermissionSyncAgrees | pkg/connector/permissions.go:98-209 | For every permission and live user, sync reports a direct grant exactly when Grant answers AlreadyExists and exactly when Revoke does not answer AlreadyRevoked, in every state with well-typed subjects. |
| Access.EffectiveAccess | pkg/connector/permissions.go:98-160 | Expanding each group grant through the synced memberships reports exactly the printed IDs of the live users that the server names in a User subject or has in a group named by a UserGroup subject, and no other principal; AllUsers and AllAdmins contribute nothing. |
| Access.HasSubjectIsDirect | pkg/connector/permissions.go:201-202 | The type-blind subject check of Grant and Revoke finds exactly the users named by User subjects. |
| Access.ExpansionOfGroup | pkg/connector/permissions.go:112-118 | The text "group:", the ID and ":member" that a group grant expands to is the entitlement that the synced grants give to exactly the users of the group's row. |
| Access.GroupSubjectsSynced | pkg/connector/permissions.go:107-118 | The groups that sync reports for a permission, each with the expansion to its members, are exactly those that a UserGroup subject names. |
| Access.TypedSyncSucceeds | pkg/connector/permissions.go:34-77 | With every subject well typed the permission list succeeds with one resource per permission, also if users have been added before they are asked for. |
| Typing.SyncFailsExactly | pkg/connector/helper.go:75-91 | The permission list, whose three reads may see three states, fails exactly when a permission does not decode or has a user or group subject that the server does not know when it is asked for them. |
| Agreement.LastUserIsKept | pkg/connector/permissions.go:48-56 | Of users with one UUID the index keeps the last. |
| Agreement.LastGroupIsKept | pkg/connector/permissions.go:58-66 | Of groups with one UUID the index keeps the last. |
| Agreement.GroupListRead | cmd/test-server/handlers.go:184-187 | The client's group list is the server's, in its order, with ID, UUID and name. |
| Agreement.UserRolesRead | cmd/test-server/handlers.go:265-277 | A user's roles are read off the edge table, and an unknown user is not found. |
| Agreement.UserIndexRead | pkg/connector/permissions.go:48-56 | The index built from the user list holds exactly the server's users. |
| Agreement.GroupIndexRead | pkg/connector/permissions.go:58-66 | The index built from the group list holds exactly the server's groups with their printed IDs. |
| ConnectorRuns.LiveKeepsSound | pkg/connector/permissions.go:222-231 | Over every run of the connector (any operations, begun at any time, interleaved in any way, any abandoned half way) the copies agree, every permission subject stays well typed and nobody is removed. |
| ConnectorRuns.StepRequest | pkg/client/client.go:357-424 | Each step of an operation makes at most one writing request, and of the kinds listed. |
| ConnectorRuns.BegunAndDone | pkg/connector/permissions.go:184-277 | Begun at any time and given six turns, an operation does to the server all that it does in one piece. |
| Reachable.OperationsReach | pkg/connector/permissions.go:184-277 | The seed is reachable, and every operation leads from a reachable state to a reachable one. |
| Reachable.ReachableIsSound | cmd/test-server/seeds.go:69-261 | Every state the connector can bring the seeded server into has agreeing copies, well-typed subjects and at most one role per user. |
| Reachable.SyncIsTotal | pkg/connector/permissions.go:34-77 | Over any run of the connector the permission list succeeds although permissions, users and groups are read at three different moments, and so do the user list and every group's member list. |
| Reachable.ReachableAccess | pkg/connector/permissions.go:98-160 | In every such state the synced grants report a permission for exactly the live users who hold it directly or through a group. |
| Reachable.ReachablePermissionSync | pkg/connector/permissions.go:98-209 | In every such state sync and provisioning agree on direct permission grants. |
| Reachable.ReachableMembershipSync | pkg/connector/groups.go:63-228 | In every such state sync and provisioning agree on group memberships. |
| Reachable.ReachableRoleSync | pkg/connector/roles.go:102-184 | In every such state sync and provisioning agree on roles. |
| Reachable.RolesOverRun | pkg/client/client.go:137 | Over any run each user's role list is untouched or exactly one role. |
| Reachable.RolesNeverDropToNone | pkg/connector/roles.go:178-183 | A user who holds a role never drops to none, whatever the connector does. |
| Reachable.SeedPermissionsTyped | cmd/test-server/seeds.go:201-260 | In the seed every permission subject means what its type says. |
| Reachable.SeedUserWithoutRole | cmd/test-server/seeds.go:169-177 | Counterexample to "every user holds exactly one role": a seed user holds none. |
| Discipline.RevokeDiscipline | pkg/connector/roles.go:147-184 | A revoke changes the server exactly when it applies, which is exactly when the user held the role and the fallback exists and differs; then the user holds exactly the fallback, and nobody else's roles change. A refused revoke writes nothing. |
| Discipline.GrantDiscipline | pkg/connector/roles.go:102-145 | A grant applies exactly when the user and role exist and the role is not held, and leaves exactly that role. |
| Discipline.FloorIsFirst | pkg/connector/roles.go:186-203 | The fallback is the first STANDARD role named Basic, and is missing exactly when there is none. |
| Discipline.ExactlyOneRole | pkg/connector/roles.go:174-176 | A role operation leaves a user with exactly one role if and only if it had one, or a grant names an existing role. |
| Discipline.NewAccountHasNoRole | cmd/test-server/state.go:178-188 | A newly created account holds no role. |
| Header.ParseAPIKeys | cmd/test-server/handlers.go:40-60 | The loop computes the parsed pair of keys, or fails with two empty keys. |
| Header.ReadPartMeans | cmd/test-server/handlers.go:43-52 | A part is passed over exactly if blank and fails the header exactly if it is not blank and has no equals sign; else it is split at the first one and trimmed. |
| Header.ParseHeaderMeans | cmd/test-server/handlers.go:40-60 | A header yields two keys exactly if no part is malformed, and they are the nonempty values of the last pairs for accessKey and secretKey. |
| Header.HeaderRoundTrip | pkg/client/client.go:379 | The parser gives back the printed keys exactly when both are nonempty, free of semicolons and without surrounding white space; they may hold equals signs. |
| Header.OrderAndPaddingDoNotMatter | cmd/test-server/handlers.go:41-53 | Such keys come out whichever field is first and however the fields are padded. |
| Header.CarriedKeysParse | cmd/test-server/handlers.go:43-59 | Blank parts and repetitions do not matter either. |
| Header.BlankReadsNothing | cmd/test-server/handlers.go:44-47 | A part of white space only is passed over. |
| Header.ParsedKeysAreClean | cmd/test-server/handlers.go:54-59 | Whatever the header, keys that come out of it are nonempty, trimmed and free of semicolons. |

## Left out

- HTTP transport, routing, URL building and JSON syntax: each request is a direct call; resource IDs are taken
  not to contain characters that would change the path.
- Rate-limit annotations, logging and error texts: failures are values.
- normalizeBaseURL: its outcome rests on the URL parser of Go's library.
- Credential generation: the password of a new account, or that none could be generated, is a parameter.
- Connector.Connector.OpenAccount: does not claim that the server's indexes agree afterwards unless the next UUID and ID
  were free, because the source writes them without looking; below 16^12 they always are.
- Retries of account creation: it is not meant to be idempotent, so `Retry.RetryConverges` excludes it.
- Serial.SerialEquivalence: does not cover account creation, and disabling accounts, because a disable does not
  commute with a re-enabling; nor operations that clash (`Interference.Clash`): a grant of one role and a revoke of
  another of the same user, unless the granted role is the fallback or unknown, and two different changes to one
  permission. `Clashes.ClashIsReal` has an interleaving for each of these pairs that the order of the deciding requests
  does not explain.
- Linearisable.Linearisability: does not cover account creation and disabling either; nor the pairs that no order explains
  (`Linearisable.HardClash`, `Pairs.HardClashIsReal`); nor a second grant or a second revoke beside a grant and a revoke of
  one permission for one user: it may then write by a reading from before two other writes, each of which has rewritten
  the names of the permission's objects.
- Response caching: the vendored HTTP client keeps every successful GET for an hour unless told otherwise
  (`vendor/github.com/conductorone/baton-sdk/pkg/uhttp/gocache.go:23`, hinted at in `pkg/connector/permissions.go:44-47`),
  so that an operation may decide by an old answer. Here every read is fresh. What an operation or a sync reads after an
  earlier write rests on that: Retry.RetryConverges, Subjects.GrantThenRevoke, Serial.SerialEquivalence,
  Linearisable.Linearisability, and the agreement of sync and provisioning (Agreement, Access, Reachable) when a write
  comes before it.
- The SDK's resource, trait and entitlement objects: a resource is an ID with the text fields of its profile, a grant
  its resource, slug, principal and expandable entitlements.
- First and last names, last login times, status and the profiles of groups and roles: no decision reads them.
- Argument checks of the enable and disable actions, which then send the same request as Delete.
- The withRoles query parameter: the client's user reads always set it, and its other reads do not look at roles.
- Unknown JSON fields, and numbers outside Go's int: the user counter is unbounded in the model, and every
  statement that could tell carries the bound 16^12, far below the overflow.
- Strings are sequences of characters; the source compares bytes, and none of the compared texts is affected.
- Arrays behind the index lists (users, groups, roles, permissions) and behind a role's permission strings: those lists
  are sequences, because no caller is ever handed one and nothing writes the strings.
- The seeded group counter, which nothing reads.
