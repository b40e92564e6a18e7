# Technology relationships and SMCP group membership, in Dafny

This project models two pieces of decision logic from the Splot IoT runtime.

- The default methods of the `Technology` interface:
  - `isHosted`, `isNative` and `isAssociatedWith` decide how a Thing relates to a technology.
    The first two walk the Thing's parent chain in a loop bounded by a counter.
  - `getRelativeUriForFunctionalEndpoint` converts a technology-relative URI into one relative
    to a Thing.
  - The trivial defaults cover a technology without hosting or group support.
- The SMCP `SmcpGroup`:
  - `addMember` sorts a candidate into reject, delegate to the local group, or add to the
    native member set.
  - `removeMember` and `fetchMembers` edit and read the two memberships.
  - Each overridden property operation is routed to the multicast transport path, the local
    fan-out group, or both. The same holds for the META_UID shortcut and the merge of cached
    sections.

Files:

- `base.dfy` (module `Base`) holds the shared vocabulary. A Thing is an id. The object graph
  is a `World` map from id to parent id and run-time class. Errors are a datatype.
- `technology.dfy` (module `Technology`) holds the parent walk. `IsHosted` and `IsNative` are
  methods with the source's do/while loop. Each is proved equal to a specification predicate
  over the `Lineage`: the Thing followed by at most five ancestors. The URI conversion and the
  trivial defaults are functions there too.
- `smcp_group.dfy` (module `Smcp`) holds the `SmcpGroup` class. Its fields are `nativeMembers`
  (`mNativeMembers`) and `localMembers` (the members of `mLocalGroup`). `AddMember`,
  `RemoveMember` and `Dispatch` call the `Technology` methods as the source does. They are
  specified by pure functions (`Classify`, `AfterAdd`, `Removed`, `Merged`, `RouteFor`,
  `CopyCachedSection`), and the lemmas are stated about those functions.

The walk depth follows the code, not the documentation. The walk starts with `parentLimit = 4`
and tests `parentLimit-- != 0` after each step up. So the loop checks depths 0 to 4, and the
final `contains` checks depth 5. The doc comment of `isHosted` says "up to four levels deep".
`HostedDepthIsFive` shows that a hosted fifth ancestor counts and a hosted sixth one does not.

## Model

| member | source | states |
|---|---|---|
| `Technology.IsHosted` | splot-base/src/main/java/com/google/iot/m2m/base/Technology.java:166-187 | the do/while walk returns true exactly when some Thing of the lineage (the Thing and at most five ancestors) is in the hosted set |
| `Technology.IsNative` | splot-base/src/main/java/com/google/iot/m2m/base/Technology.java:199-218 | the same walk returns true exactly when some Thing of the lineage is a Group whose technology is this one |
| `Technology.IsAssociatedWith` | splot-base/src/main/java/com/google/iot/m2m/base/Technology.java:228-230 | the result is `isNative(fe) \|\| isHosted(fe)`, with `isHosted` evaluated only when `isNative` is false |
| `Technology.HostedWithinFiveAncestors` | splot-base/src/main/java/com/google/iot/m2m/base/Technology.java:166-187 | a Thing is hosted exactly when it or one of its ancestors at depth 1 to 5 exists and is in the hosted set |
| `Technology.NativeWithinFiveAncestors` | splot-base/src/main/java/com/google/iot/m2m/base/Technology.java:199-218 | a Thing is native exactly when it or one of its ancestors at depth 1 to 5 is a Group of this technology; a chain with no such Group is never native |
| `Technology.LineageShape` | splot-base/src/main/java/com/google/iot/m2m/base/Technology.java:170-186 | the walk inspects between one and six Things, each the parent of the previous, and stops early only at a null parent |
| `Technology.SelfParentLineage` | splot-base/src/main/java/com/google/iot/m2m/base/Technology.java:170-186 | a Thing that is its own parent is inspected six times and the walk ends |
| `Technology.HostedDepthIsFive` | splot-base/src/main/java/com/google/iot/m2m/base/Technology.java:131-187 | in a chain of seven Things, hosting the fifth ancestor makes the first Thing hosted and hosting the sixth does not |
| `Technology.ChainIsAncestors` | splot-base/src/main/java/com/google/iot/m2m/base/Technology.java:177-183 | entry k of the walk is the k-th ancestor, and the walk is cut exactly where the ancestors run out |
| `Technology.CopyHostedFunctionalEndpointSet` | splot-base/src/main/java/com/google/iot/m2m/base/Technology.java:97-99 | the default hosted set holds no Thing |
| `Technology.DefaultTechnologyHostsNothing` | splot-base/src/main/java/com/google/iot/m2m/base/Technology.java:97-187 | with the default hosted set, `isHosted` is false for every Thing, so only native Things are associated |
| `Technology.CreateNewGroup` | splot-base/src/main/java/com/google/iot/m2m/base/Technology.java:430-432 | the default fails with GroupsNotSupported |
| `Technology.FetchOrCreateGroupWithId` | splot-base/src/main/java/com/google/iot/m2m/base/Technology.java:443-445 | the default yields null for every group id |
| `Technology.CopyHostedGroups` | splot-base/src/main/java/com/google/iot/m2m/base/Technology.java:454-456 | the default collection of hosted groups is empty |
| `Technology.GetNativeUriForProperty` | splot-base/src/main/java/com/google/iot/m2m/base/Technology.java:321-324 | the two-argument form equals the full call with `Operation.UNSPECIFIED` and no modifiers |
| `Technology.GetRelativeUriForFunctionalEndpoint` | splot-base/src/main/java/com/google/iot/m2m/base/Technology.java:380-412 | a successful result keeps the path, query and fragment; a result that differs from the input came from a URI with a scheme and has no scheme or authority; a scheme-less URI succeeds only for a hosted Thing |
| `Technology.SchemelessUriDecision` | splot-base/src/main/java/com/google/iot/m2m/base/Technology.java:382-395 | without a scheme: an empty path fails on `charAt(0)`; a path not starting with '/' fails with UnknownResource even for an unhosted Thing; otherwise the URI comes back unchanged exactly when the Thing is hosted, and UnassociatedResource is the failure when it is not |
| `Technology.AbsoluteUriDecision` | splot-base/src/main/java/com/google/iot/m2m/base/Technology.java:397-411 | with a scheme: a failing native-URI lookup is passed on; otherwise the result differs from the input exactly when scheme and authority both equal those of the Thing's native URI, and then it keeps only path, query and fragment |
| `Technology.AbsoluteUriRoundTrip` | splot-base/src/main/java/com/google/iot/m2m/base/Technology.java:397-411 | for a URI with a scheme, putting the native URI's scheme and authority back on the result gives the input (this is not RFC 3986 reference resolution, which would also inherit an empty path or a missing query) |
| `Smcp.SmcpGroup.constructor` | smcp/src/main/java/com/google/iot/smcp/SmcpGroup.java:61-67 | a new group has no native members and takes over the members of the local group it found or created |
| `Smcp.SmcpGroup.AddMember` | smcp/src/main/java/com/google/iot/smcp/SmcpGroup.java:148-187 | the outcome and the new membership are those that `Classify` decides for the candidate, with the checks in the source's order |
| `Smcp.AddMemberDecision` | smcp/src/main/java/com/google/iot/smcp/SmcpGroup.java:149-187 | an SmcpGroup of the same technology is refused first, then an unassociated Thing; a candidate is accepted exactly when it is hosted or a native SmcpThing; the last refusal hits native Things that are neither hosted nor SmcpThings |
| `Smcp.NativeGroupIsAssociated` | smcp/src/main/java/com/google/iot/smcp/SmcpGroup.java:149-159 | an SmcpGroup of the technology is always native to it |
| `Smcp.AddMemberEffect` | smcp/src/main/java/com/google/iot/smcp/SmcpGroup.java:161-181 | a hosted Thing is added to the local group only, with `mNativeMembers` unchanged; a native, non-hosted SmcpThing is added to `mNativeMembers` only; a refusal changes nothing |
| `Smcp.AddIsIdempotent` | smcp/src/main/java/com/google/iot/smcp/SmcpGroup.java:165-181 | adding the same Thing twice leaves one copy |
| `Smcp.AddedThingIsFetched` | smcp/src/main/java/com/google/iot/smcp/SmcpGroup.java:118-187 | after an accepted add, the Thing is among the fetched members exactly when it was added natively, the group is hosted, or it already was a native member |
| `Smcp.SmcpGroup.RemoveMemberAsWritten` | smcp/src/main/java/com/google/iot/smcp/SmcpGroup.java:190-197 | a Thing that is not an SmcpThing fails with ClassCastException and changes nothing; any other Thing is removed from both sets |
| `Smcp.SmcpGroup.RemoveMember` | smcp/src/main/java/com/google/iot/smcp/SmcpGroup.java:190-197 | the Thing is removed from `mNativeMembers` and from the local group, and nothing else changes |
| `Smcp.RemoveUndoesAdd` | smcp/src/main/java/com/google/iot/smcp/SmcpGroup.java:148-197 | removing a Thing that was not a member before it was added restores the membership |
| `Smcp.RemovedThingIsNotFetched` | smcp/src/main/java/com/google/iot/smcp/SmcpGroup.java:190-197 | after removal the Thing is not fetched, and every other member is fetched exactly as before |
| `Smcp.AsWrittenRemovalKeepsHostedMember` | smcp/src/main/java/com/google/iot/smcp/SmcpGroup.java:161-197 | a hosted Thing that is not an SmcpThing is added to the local group, and the as-written removal then fails with ClassCast; the corrected removal takes it out |
| `Smcp.HostedLocalThingCannotBeRemoved` | smcp/src/main/java/com/google/iot/smcp/SmcpGroup.java:161-197 | a concrete hosted local Thing stays in the local group under the as-written removal |
| `Smcp.SmcpGroup.FetchMembers` | smcp/src/main/java/com/google/iot/smcp/SmcpGroup.java:118-145 | an unhosted group yields exactly its native members; a hosted group yields the union of the native and local members |
| `Smcp.SmcpGroup.Dispatch` | smcp/src/main/java/com/google/iot/smcp/SmcpGroup.java:213-377 | each overridden operation takes the route `RouteFor` gives for `isHosted(this)` and `hasLocalMembers()`, with META_UID answered before hosting is asked |
| `Smcp.MutationRouting` | smcp/src/main/java/com/google/iot/smcp/SmcpGroup.java:214-259 | set, increment, insert, remove, toggle, apply and invoke always reach the transport path, and reach the local group exactly when the group is hosted and has local members |
| `Smcp.FetchRouting` | smcp/src/main/java/com/google/iot/smcp/SmcpGroup.java:268-281 | fetchProperty (other than META_UID), fetchSection, fetchSupportedPropertyKeys and fetchChildrenForTrait read from one side only, and from the local group exactly when the group is hosted and has local members |
| `Smcp.CachedAndUidRouting` | smcp/src/main/java/com/google/iot/smcp/SmcpGroup.java:262-296 | META_UID from fetchProperty or getCachedProperty is always the group id; any other cached property is read from the local group exactly when the group is hosted, even without local members, unlike fetchProperty |
| `Smcp.CopyCachedSection` | smcp/src/main/java/com/google/iot/smcp/SmcpGroup.java:298-319 | the result holds only keys of the section, each carrying its value from the transport or the local cache; unhosted it is the transport section; hosted, STATE and CONFIG are overlaid by the local values only with local members, and METADATA is always overlaid, with META_UID set to the group id; in an overlaid section the local value wins and a transport key the local cache lacks keeps its transport value |
| `Smcp.GetCachedProperty` | smcp/src/main/java/com/google/iot/smcp/SmcpGroup.java:283-296 | META_UID reads as the group id; any other key is looked up in the local cache exactly when `RouteFor` sends a cached read to the local group (whenever the group is hosted), and in the transport cache otherwise |
| `Smcp.CachedViewsAgree` | smcp/src/main/java/com/google/iot/smcp/SmcpGroup.java:283-319 | for a hosted group whose section is overlaid, a single cached property read and the same key in its cached section agree for a key the local cache holds, and for META_UID |
| `Smcp.CachedViewsDiverge` | smcp/src/main/java/com/google/iot/smcp/SmcpGroup.java:283-319 | hosted without local members, a single cached STATE property comes from the local group while the STATE section comes from the transport cache; hosted with local members, a STATE key only the transport cache holds reads as missing yet stays in the STATE section; unhosted, META_UID reads as the group id but need not be in the METADATA section |

## Left out

- Futures, executors and cancellation are not modelled. Under the `Both` route the caller gets only the local group's future (`chainCancelation` returns it), so a failure on the transport path is never reported; the model names the route and not the result. This covers `chainCancelation`, the listener wiring in `fetchMembers` and `getExecutor().execute`. Each operation is modelled by its eventual effect, with the task of `addMember` run to completion.
- The transport path is not modelled beyond routing. `super.setProperty` and the other calls into `SmcpThing` and the CoAP multicast client are named by the route they take.
- `createClient`, `onHosted` and `onUnhosted` are left out: they are calls into the CoAP library and the local technology.
- Listener registration forwarding, the empty persistence stubs and the constant capability flags of `SmcpGroup` are left out: they carry no decision.
- `LocalGroup` is not part of this model. `hasLocalMembers()` is modelled as "the local group has at least one member".
- Smcp.SmcpGroup.AddMember: assumes that `mLocalGroup.addMember` adds the Thing and succeeds, because the local group's own checks are not part of this model.
- Smcp.SmcpGroup.RemoveMemberAsWritten: assumes that `mLocalGroup.removeMember` removes the Thing, for the same reason.
- The interface methods without a default body (`prepareToHost`, `host`, `unhost`, the URI lookups) belong to each technology. `getNativeUriForFunctionalEndpoint` and the full `getNativeUriForProperty` appear as function parameters.
- The default `lookupFunctionalEndpointForUri` only wraps `getFunctionalEndpointForNativeUri` in a future, so it is left out.
- The `URISyntaxException` branch of `getRelativeUriForFunctionalEndpoint` is left out. A URI is a record of components here, so rebuilding one cannot fail.
- Technology.GetRelativeUriForFunctionalEndpoint: the five-argument `java.net.URI` constructor re-parses the string it builds, and that is not modelled. A path starting with `//` (such as `coap://h//x` under a native URI `coap://h`) comes back in the source as a URI whose authority is `x`, whereas the model keeps the path `//x` with no authority. An opaque URI loses its scheme-specific part in the source, and the model has no opaque URIs.
- An empty scheme-less path makes `charAt(0)` throw. The model returns an explicit `IndexOutOfBounds` error for it.
- The cached-property functions take the two caches as inputs. META_UID is defined in `BaseTrait`, which this model leaves out, so META_UID is a separate key constructor.
- The transition engine, the scene manager, the persistent state manager and property coercion are not part of this model. Their implementations are not among the modelled files.

## Findings

| source | as written | input that shows it | evidently intended | confidence | as-written member | corrected member |
|---|---|---|---|---|---|---|
| smcp/src/main/java/com/google/iot/smcp/SmcpGroup.java:190-197 | `removeMember` casts its argument to `SmcpThing` before removing it from `mNativeMembers` and before forwarding to `mLocalGroup.removeMember` | a hosted Thing that is not an SmcpThing (a local Thing), which `addMember` put into the local group; removing it throws ClassCastException and it stays a member | drop the Thing from `mNativeMembers` if present, and always forward the removal to the local group | not executed; high that the cast throws, medium that the throw is unintended | `Smcp.AsWrittenRemovalKeepsHostedMember` | `Smcp.RemovedThingIsNotFetched` |
