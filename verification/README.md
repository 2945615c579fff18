# A verified model of the CSI bottle driver's node service and release tagging

This Dafny project models three parts of the repository and proves what they promise:

- the node volume lifecycle of `pkg/data/node.go`: the four node RPCs over a directory tree, a table
  of bind mounts and the staged bottle contents, with calls for several volumes in flight, failing
  and partially completing system calls, process crashes, and the cache pruner of `pkg/data/driver.go`
  running beside them;
- the credential and selector decoding at the start of staging;
- the floating release tags of `bin/release.sh`.

## How the model is built

| module | what it holds |
|---|---|
| `Text`, `Paths` | splitting and joining text; cleaned paths and `filepath.Join` |
| `FileSystem` | directory tree, mount stacks, and the effect of each system call, with partial results after a failure; a path under a mounted target resolves to the mounted source |
| `Base64`, `Credentials` | `base64.StdEncoding`, the credential loop, the selectors |
| `NodeSteps`, `Finishing` | the RPCs as step machines, and an RPC run alone (`Run`), system call by system call |
| `Requests` | what the text of a request amounts to: the bottle staged, the directory it is staged in, the source mounted |
| `NodeServer` | the RPCs as methods that update the node's state in place, each proved to be `Run`; the pruner |
| `Volumes`, `Isolation` | a volume's paths, its slice of the node, and that a call for it neither sees nor touches other slices |
| `Node` | the whole node: interleaved steps, crashes, the pruner, and the caller's ledger per volume |
| `Serial`, `Atomic` | interleavings against calls taken one at a time in the order in which they start, which gives all but the blob cache |
| `PullOrder`, `CacheOrder` | the same in the order in which calls pull (`PullOrder.Postponed`: each call stands where its second step does, which is the pull if it pulls), which gives the whole state |
| `Layout` | the caller's obligations on IDs and paths, and the separation that follows |
| `Lifecycle`, `Safety` | what every step keeps, and what holds in every state of every conforming run |
| `Retry`, `Calls`, `Pods`, `Examples` | repeated, retried and undone calls; several pods on one persistent volume; concrete runs |
| `Versions`, `ReleaseTags`, `ReleaseHistory` | version text, the nested checks of the release script, and whole release histories |

A call that fails is described by a `Choice`: whether the system call or pull succeeds, and what
partial result it leaves when it does not. A run is a sequence of deeds (the start of a call, the making
of a persistent volume's staging directory by the caller, a step of a call, a crash of a call, a pass of
the pruner); a process crash is a `Crash` for every volume with a call in flight. A run conforms when
each volume gets its calls one at a time and in the order of the flows at `pkg/data/node.go:148-162`
(`Lifecycle.Conforms`), its requests agree on its paths, on which targets are read-only, on whether it is
ephemeral and, where content is staged, on the bottle and its selectors (`Volumes.Owner.Suits`), and the
volume IDs and paths are as `Layout.Obligations` says. What else a volume context says, such as the pod's
name, namespace and UID (`pkg/data/event.go:24-29`), may differ from call to call. These are the
caller's duties under the sections "Volume Lifecycle", "Concurrency" and "NodeStageVolume" of the
Container Storage Interface specification, version 1.10.0. By the last of these the caller creates the
staging directory of a persistent volume. It may do so in a run whenever no call for the volume is in
flight, or have done so before: a run starts with nothing on the volumes' paths but perhaps such empty
directories (`Safety.Fresh`). The per-volume `Ledger` records what the caller can know, attempts and
answers, and beside it which mounts lack their options (`bare`).

Four findings are stated as results:

- `NodeUnpublishVolume` takes any failure of `os.Stat` on the ephemeral staging path for absence. It
  then answers OK with the content left in place; `StatDecides` says exactly when, `StatFaultLeaves`
  that it happens on any node, `UnpublishTwiceExactly` that only then a repetition changes anything. Whole-run leak freedom therefore assumes that this look does not fail.
- The mount helper binds first and applies the options with a second system call. When it fails
  between the two, the mount stays without its options, and the repeated Publish finds the target mounted
  and answers OK (`HalfMountIsKept`). `MountsAreBacked` says for every run which mounts have their
  options; `MountsHaveOptions` says that all do when no mount fails half-way.
- Nothing checks volume IDs but for the empty one. An ID gets the directory of its own name exactly if it
  is one ordinary path component (`OrdinaryIsNeeded`), and its staging path is apart from the cache and
  from those of all other ordinary IDs exactly if it is that or leads out of the staging directory
  (`SeparatedExactly`). A faultless Unpublish for the ID "." of a target that is not mounted
  removes the staged content of every ephemeral volume, mounted or not, and answers OK (`DotIdPurgesOthers`).
- The release script compares numbers with the shell's 64-bit integers. A release that exceeds the
  target only in a larger number is not seen. `WhenNestedIsPrecedence` says for each of the three floating
  tags exactly when the check behind it agrees with precedence; `OversizedPatchIsNotSeen` and
  `OversizedPatchInSeenMajor` give instances, the second one with the third tag right and the other two wrong.

The comment at `pkg/data/node.go:305` calls the mount read-only; the code makes it read-only only when
the request asks for it, and so does the model.

## Model

| member | source | states |
|---|---|---|
| `NodeServer.NodeServer.constructor` | pkg/data/node.go:57-100 | the server uses the directories `ephemeral/staging` and `cache` under the storage directory, on a node found in any state |
| `NodeServer.NodeServer.StageContents` | pkg/data/node.go:164-280 | without readable credentials nothing is pulled and nothing changes; otherwise state and outcome are those of the staging part of the step machine, a failure at any point included; success means that the registry has the bottle which the texts under "bottle" and "selector" ask for and that its entries are in place |
| `NodeServer.NodeServer.NodeStageVolume` | pkg/data/node.go:283-303 | is the Stage step machine run alone; InvalidArgument exactly for incomplete requests; these and bad credentials change nothing; no mount changes, and OK means that the bottle asked for is at the staging path |
| `NodeServer.NodeServer.NodePublishVolume` | pkg/data/node.go:306-377 | is the Publish step machine run alone; OK means the target is mounted; InvalidArgument exactly for incomplete requests, which change nothing; with "true" under "csi.storage.k8s.io/ephemeral" the directory of the volume ID is what gets mounted and OK means the bottle asked for is in it; without the key, or with another value, the request's staging path is what gets mounted, the tree gains only the target, and a request without that path is refused |
| `NodeServer.NodeServer.MountContents` | pkg/data/node.go:342-374 | state and answer are those of the step machine from the mount check on, for every outcome of its system calls |
| `NodeServer.NodeServer.BindContents` | pkg/data/node.go:367-374 | state and answer are those of the step machine's mount, with the options built up as the source builds them |
| `NodeServer.NodeServer.NodeUnpublishVolume` | pkg/data/node.go:380-437 | is the Unpublish step machine run alone; OK means the target is neither mounted nor present and, unless the look for it failed, the ephemeral content is gone |
| `NodeServer.NodeServer.Detach` | pkg/data/node.go:396-408 | state and answer are those of the step machine from the mount check on |
| `NodeServer.NodeServer.RemoveTarget` | pkg/data/node.go:410-416 | state and answer are those of the step machine from the removal of the target on |
| `NodeServer.NodeServer.PurgeContents` | pkg/data/node.go:420-436 | state and answer are those of the step machine from the look for ephemeral content on |
| `NodeServer.NodeServer.NodeUnstageVolume` | pkg/data/node.go:440-461 | is the Unstage step machine run alone; OK means nothing is left at the staging path |
| `NodeServer.Refusals` | pkg/data/node.go:309-340 | a call is answered InvalidArgument exactly when its request is incomplete; such calls, and those whose credentials cannot be read, change nothing |
| `NodeServer.Driver.PruneOnce` | pkg/data/driver.go:179-184 | a pass of the pruner removes exactly the chosen entries strictly below the cache directory, and changes no mount and nothing else |
| `Requests.StageByText` | pkg/data/node.go:165-179 | a faultless Stage at a free path leaves there exactly what the registry has for the text under "bottle" and the list of selectors under "selector", for all parts without that key, for the empty reference without "bottle"; if it has nothing the answer is Internal and nothing changes |
| `Requests.PublishByText` | pkg/data/node.go:328-376 | the same of a faultless ephemeral Publish, in the directory of the volume ID under the staging directory, which is mounted once on the target with the options asked for |
| `Requests.PersistentPublish` | pkg/data/node.go:328-374 | a Publish whose context has not the text "true" under "csi.storage.k8s.io/ephemeral" mounts the request's staging path, and of the tree only the target is made; without a staging path it is InvalidArgument |
| `Requests.PersistentPublishAsksNobody` | pkg/data/node.go:328-374 | its outcome depends neither on the registry nor on credentials or telemetry |
| `Requests.EphemeralPublish` | pkg/data/node.go:328-336 | a Publish with that text mounts the directory of the volume ID, and OK means that the bottle asked for is in it |
| `Requests.EphemeralPublishIgnoresPath` | pkg/data/node.go:330-330 | whatever staging path the request gives |
| `FileSystem.MkdirMeans` | pkg/data/node.go:344-348 | making a directory makes all missing directories on the way, or, failing, the first few; a file in the way makes it fail |
| `FileSystem.RemoveMeans` | pkg/data/node.go:410-416 | a removal takes all there is at an unmounted path, or, failing, any of its parts; "not exist" is reported only if nothing is there |
| `FileSystem.PullMeans` | pkg/data/node.go:256-264 | a pull writes the whole bottle, or, failing, any prefix-closed part of it |
| `FileSystem.BindMeans` | pkg/data/node.go:371-373 | a mount needs its source and target; a failure leaves nothing, or the mount with the option bind alone |
| `FileSystem.UnmountUndoesMount` | pkg/data/node.go:396-408 | a mount goes on top of the stack of its target, and an unmount takes the top off |
| `FileSystem.ProbeMeans` | pkg/data/node.go:342-358 | the mount check sees a mount, an absent path, or a plain directory, unless it fails |
| `Credentials.LoadCredentials` | pkg/data/node.go:187-222 | whatever order the hosts are visited in, loading succeeds exactly when every entry is well formed, and the store then holds exactly the listed hosts: without `auth` the plain user and password, otherwise the colon-free user and password whose text with a colon between them `auth` encodes; an error is that of some bad entry |
| `Credentials.ReadAuthMeans` | pkg/data/node.go:199-217 | an entry stands for a user and password exactly if they are its plain ones and there is no `auth`, or `auth` decodes to the user, a colon, and the password, neither with a colon |
| `Credentials.ReadAuthFails` | pkg/data/node.go:205-214 | it is bad for one of two reasons: `auth` does not decode, or the text has not exactly one colon |
| `Credentials.ReadAuthSucceeds` | pkg/data/node.go:203-217 | an entry is accepted exactly when its `auth` is empty or decodes to text with exactly one colon |
| `Credentials.ReadAuthSplitsAtColon` | pkg/data/node.go:211-216 | user, colon and password together are the decoded text, and neither holds a colon |
| `Credentials.CredentialRoundTrip` | pkg/data/node.go:200-217 | a colon-free user and password, encoded as section 4 of RFC 4648 says, are read back and override the plain fields |
| `Base64.DecodeOfEncode` | pkg/data/node.go:205-208 | decoding undoes encoding, also with a line feed or carriage return inserted anywhere |
| `Base64.DecodesExactly` | pkg/data/node.go:205-208 | apart from line breaks exactly whole groups of four letters decode, with padding in at most two places, at the end |
| `Base64.LetterTable` | pkg/data/node.go:205-208 | the letters are those of table 1 of RFC 4648, and no other character has a value |
| `Base64.ChunkBits` | pkg/data/node.go:205-208 | the bytes of a group are the bits of its letters in order, also when bits beyond the last whole byte are set |
| `Base64.DecodeExample` | pkg/data/node.go:205-208 | "dXNlcjpwYXNz" decodes to "user:pass" |
| `Credentials.SelectorRoundTrip` | pkg/data/node.go:175-179 | a non-empty list of `\|`-free selectors joined with `\|` is read back as that list |
| `Credentials.SelectorsDetermineText` | pkg/data/node.go:175-179 | joining what was read gives the text back; the empty list means exactly that there is no selector, so it differs from the empty selector |
| `NodeSteps.WantedMeans` | pkg/data/node.go:165-179 | what is pulled is a reference with selectors exactly if "bottle" holds the reference (a missing key counts as empty) and "selector" holds the selectors, free of `\|`, joined with `\|` (a missing key for none) |
| `Paths.JoinIsChild` | pkg/data/node.go:330-330 | joining one element gives the child of that name exactly when the element is one ordinary component |
| `Paths.JoinSpecial` | pkg/data/node.go:330-330 | the empty element and "." stay, ".." leads to the parent |
| `Paths.JoinSlash` | pkg/data/node.go:330-330 | an element with a slash is joined part by part |
| `Layout.NewConfigPaths` | pkg/data/node.go:73-74 | the staging and cache directories are where the constructor says, also through path cleaning |
| `Layout.ShelterPaths` | pkg/data/node.go:423-423 | ordinary IDs get distinct, non-nested staging paths that do not meet the cache |
| `Layout.OrdinaryIsNeeded` | pkg/data/node.go:330-330 | an ID is placed in the directory of its own name under the staging directory exactly if it is one ordinary component |
| `Layout.SeparatedExactly` | pkg/data/node.go:330-330 | the staging path of an ID is apart from the cache and from the staging paths of all other ordinary IDs exactly if the ID is one ordinary component or its path leads out of the staging directory and away from the cache |
| `Layout.DotIdPurgesOthers` | pkg/data/node.go:384-434 | a faultless Unpublish for the ID "." answers OK and removes the staging directory of another ephemeral volume that stays mounted |
| `Layout.ObligationsSeparate` | pkg/data/node.go:73-74 | a caller that meets its obligations keeps all paths of all volumes apart from each other and from the cache |
| `Layout.ExampleMeetsObligations` | pkg/data/node.go:148-162 | the obligations can be met, by an ephemeral and a persistent volume with two targets for example |
| `Isolation.StepOnSlice` | pkg/data/node.go:306-437 | a step of a call does and learns on the whole node what it would on its volume's slice alone |
| `Isolation.StepIsConfined` | pkg/data/node.go:306-437 | a step removes and writes only under its volume's paths or in the cache, creates only directories above them, and mounts only its volume's staging directory on its volume's targets |
| `Isolation.StrangerStep` | pkg/data/node.go:306-437 | a step for one volume does not show in another volume's slice, although both create shared parent directories |
| `Isolation.PruneStep` | pkg/data/driver.go:143-184 | a pass of the pruner does not show in any volume's slice |
| `Node.RunView` | pkg/data/node.go:283-461 | in any interleaving each volume sees what it would see running alone |
| `Serial.CommonRun` | pkg/data/node.go:344-348 | at a place that belongs to no volume a run can only have created directories |
| `Serial.ProjectionsDecide` | pkg/data/node.go:283-461 | two runs that give every volume the same events in the same order end with the same mounts, the same tree outside the cache and the same ledgers, answers included |
| `Serial.Serialisable` | pkg/data/node.go:283-461 | every interleaving, with faults, crashes and the pruner, ends like the run that takes the calls one at a time in the order in which they started |
| `Serial.DeedsCommute` | pkg/data/driver.go:143-184 | two steps for different volumes, or a step and a pass of the pruner, can change places |
| `Atomic.BlockIsRpc` | pkg/data/node.go:283-461 | the uninterrupted steps of a call from its start to its answer are the RPC |
| `Atomic.AnsweredRunIsAtomic` | pkg/data/node.go:283-461 | a conforming interleaved run in which all calls are answered ends like whole RPCs, with the staging directories the caller makes and the pruner passes in between, run one after the other in the order in which they started, with the same answers |
| `CacheOrder.RunInCache` | pkg/data/node.go:256-264 | what a run does to the blob cache is decided by the blobs of its pulls and the passes of the pruner, in their order |
| `CacheOrder.SerialisableInPullOrder` | pkg/data/node.go:283-461 | every conforming interleaving, with faults, crashes and the pruner, ends in exactly the state, the cache included, in which the calls end when taken one at a time in the order in which they pull |
| `CacheOrder.AnsweredRunIsAtomicInPullOrder` | pkg/data/node.go:283-461 | a conforming run in which all calls are answered ends in exactly the state, the cache included, and with the answers, of its calls run whole one after the other in that order |
| `Lifecycle.PullKeeps` | pkg/data/node.go:256-264 | a pull, complete or partial, only adds bottle entries; into a complete directory it leaves it complete, and a successful one makes it complete |
| `Lifecycle.RemoveKeeps` | pkg/data/node.go:410-434 | a removal at an unmounted path of a volume, complete or partial, touches nothing elsewhere |
| `Lifecycle.EventIsSafe` | pkg/data/node.go:283-461 | every start, step and crash of a conforming run, and the making of a staging directory by the caller, keeps the volume safe: mounts backed, published targets mounted, staging only from the bottle, no remains where nothing is pending |
| `Safety.RunIsSafe` | pkg/data/node.go:283-461 | so does every conforming run of the whole node, for all volumes |
| `Safety.MountsAreBacked` | pkg/data/node.go:354-374 | in every state of every conforming run a mounted target was asked for and not yet unpublished, carries one mount only, of its volume's staging directory, and that directory shows exactly the bottle; the options are bind, noexec, and ro exactly when asked, if and only if the mount was not left behind by a Publish that failed before applying them, else bind alone |
| `Safety.MountsHaveOptions` | pkg/data/node.go:367-374 | as long as no mount of a volume fails half-way, every mount of it has exactly the options asked for |
| `Safety.PublishedStaysMounted` | pkg/data/node.go:306-377 | from the step that answers a Publish with OK, a target stays mounted, once, showing exactly the bottle, as long as no Unpublish of that target starts, whatever else happens, calls for other targets of the same volume included |
| `Safety.StagedContentIsPreserved` | pkg/data/node.go:396-434 | a staged entry, or the staging directory itself, disappears only in the last step of Unpublish of an ephemeral volume or of Unstage of a persistent one, of that volume, with none of its targets mounted |
| `Safety.ShelterTellsEphemeral` | pkg/data/node.go:420-434 | anything at a volume's ephemeral staging path means the volume is ephemeral and its staging was attempted and not cleaned up since |
| `Safety.StagedStaysComplete` | pkg/data/node.go:298-303 | a persistent volume shows exactly its bottle from a successful Stage to the next Unstage |
| `Safety.HeldMeansLive` | pkg/data/node.go:420-434 | as long as the look for ephemeral content does not fail, an ephemeral volume has something staged only while a Publish is unanswered |
| `Safety.NoLeak` | pkg/data/node.go:410-461 | when all is closed the mounts are the initial ones, and the tree outside the cache is the initial one but for parent directories and the empty staging directories of persistent volumes, which the caller makes and Unstage removes |
| `Safety.NoLeakOnceAnswered` | pkg/data/node.go:410-461 | the same when every attempted Publish was since unpublished with success and every attempted Stage unstaged with success |
| `Safety.SerialisedConforms` | pkg/data/node.go:148-162 | the calls of a conforming run taken one at a time are a conforming run with the same outcome |
| `Retry.RetriesAddNothing` | pkg/data/node.go:380-437 | however Unpublish is tried, fails and crashes, mounts on the target, target entries and ephemeral entries never become more |
| `Retry.SmoothCleaning` | pkg/data/node.go:396-434 | a faultless step of Unpublish comes closer to the end, and at the end everything is clean |
| `Retry.UnpublishConverges` | pkg/data/node.go:380-437 | from every state of every conforming run, one Unpublish whose own steps do not fail leaves no mount, no target entry and no ephemeral entry, and answers OK, whatever runs in between |
| `Calls.CallAnswers` | pkg/data/node.go:283-461 | the steps of a call alone amount to the RPC as a whole |
| `Calls.PublishTwice` | pkg/data/node.go:354-358 | repeating a successful Publish, however the repetition turns out, leaves the mount table as it is, and for a persistent volume everything |
| `Calls.UnpublishTwice` | pkg/data/node.go:396-434 | after a successful Unpublish that leaves nothing at the ephemeral staging path, which it does if its look for content did not fail, repeating it changes nothing at all, and succeeds if nothing fails |
| `Calls.UnpublishTwiceExactly` | pkg/data/node.go:396-434 | a faultless repetition changes nothing exactly if nothing stands at the ephemeral staging path after the first call, that is, if nothing stood there before or the look for it did not fail |
| `Calls.StageSucceedsExactly` | pkg/data/node.go:283-303 | Stage answers OK exactly when the request is complete, the credentials can be read, the registry has the bottle, no file is in the way, and resolve, pull and notify all succeed |
| `Calls.PublishSucceeds` | pkg/data/node.go:328-376 | with a bottle the registry has, readable credentials and no file in the way, a faultless ephemeral Publish of an unmounted target succeeds and mounts the staging directory once, as asked |
| `Calls.PublishRunMounts` | pkg/data/node.go:156-162 | the premises of the run-wide results can be met by a run in which a target of an ephemeral volume gets mounted |
| `Pods.StagedPublishRunMounts` | pkg/data/node.go:148-155 | and by one in which the caller makes the staging directory of a persistent volume, stages it and publishes it at any number of targets, each request with its own context: all calls are answered OK and all the targets are mounted |
| `Pods.TwoPodsMount` | pkg/data/event.go:24-29 | an instance: two pods on one persistent volume, each with its own name in the context of its Publish |
| `Examples.PodRun` | pkg/data/node.go:156-162 | the premises can be met on a concrete site and an empty node: a conforming run from rest whose one call, an ephemeral Publish, is answered and mounts its target |
| `Examples.PvRun` | pkg/data/node.go:148-155 | and a conforming run in which two pods share a persistent volume |
| `Calls.HalfMountIsKept` | pkg/data/node.go:354-374 | a Publish whose mount fails after binding leaves the mount without its options, and the repeated Publish answers OK and leaves it so |
| `Calls.StatDecides` | pkg/data/node.go:424-424 | after a successful Unpublish ephemeral content is there exactly if it was there and the look for it failed |
| `Calls.StatFaultLeaves` | pkg/data/node.go:424-424 | on any node, an Unpublish in which nothing fails but the look for ephemeral content answers OK and leaves all there is at the ephemeral staging path |
| `Calls.UnpublishUndoesPublish` | pkg/data/node.go:306-437 | an ephemeral Publish, successful or failed at any step, and a faultless Unpublish leave the node as it was but for parent directories and the cache |
| `Versions.PrintParse` | bin/release.sh:34-45 | a printed version parses to its three numbers and passes the filters of its own line and major only |
| `Versions.FullTagMeans` | bin/release.sh:120-120 | the filter for full tags passes exactly the texts of a "v" and three decimal numerals with dots between them |
| `Versions.WrittenParts` | bin/release.sh:34-45 | major, minor and patch parsed from such a text are its three numerals, and the filters of lines and majors pass it exactly for its own |
| `Versions.StripMeans` | bin/release.sh:34-35 | of any text the first "v" is dropped, if there is one |
| `Versions.CutMeans` | bin/release.sh:34-45 | a field is the piece between dots of that number, nothing beyond the last, and the whole text if it has no dot |
| `Versions.DecIsPlain` | bin/release.sh:34-45 | a version number is written as the only numeral of its value without leading zeros |
| `Versions.TestGtMeans` | bin/release.sh:61-61 | the shell finds a numeral greater exactly if its value is greater and at most 9223372036854775807 |
| `Versions.FloatsAreNotReleases` | bin/release.sh:134-140 | no floating tag passes the full-tag filter, and the three kinds of floating tags are distinct |
| `ReleaseTags.IsLatestPatch` | bin/release.sh:50-68 | true exactly when no tag of the same major and minor has a patch the shell finds greater |
| `ReleaseTags.IsLatestMinor` | bin/release.sh:72-89 | true exactly when no tag of the same major has a minor the shell finds greater |
| `ReleaseTags.IsLatestMajor` | bin/release.sh:92-108 | true exactly when no full tag has a major the shell finds greater |
| `ReleaseTags.PatchLatestOnText` | bin/release.sh:50-68 | on the text of the tags: `isLatestPatch` is true exactly if no tag "v" major "." minor "." patch of the same major and minor is listed with a patch that exceeds the target's and is at most 9223372036854775807 |
| `ReleaseTags.MinorLatestOnText` | bin/release.sh:72-89 | the same of minors within a major |
| `ReleaseTags.MajorLatestOnText` | bin/release.sh:92-108 | the same of majors |
| `ReleaseTags.OtherTagsDoNotMatter` | bin/release.sh:112-120 | tags that are not written as "v" and three numerals, such as those of prereleases, change no answer |
| `ReleaseTags.BetaDoesNotHoldBack` | bin/release.sh:112-120 | v1.2.5 takes over `v1.2`, `v1` and `latest` although v1.3.0-beta is listed |
| `ReleaseTags.ResolveExtraTags` | bin/release.sh:116-146 | the floating tags depend only on the set of listed tags, not on their order |
| `ReleaseTags.NestedIsPrecedence` | bin/release.sh:126-143 | one, two, three floating tags are taken over exactly when the target is the greatest of its line, of its major, of all, by section 11 of Semantic Versioning 2.0.0 |
| `ReleaseTags.WhenNestedIsPrecedence` | bin/release.sh:61-61 | without a bound on the numbers, for each of the line, the major and all releases: the check agrees with precedence exactly when some greater release in that scope, if there is any, is greater by a number the shell can compare |
| `ReleaseTags.OversizedPatchIsNotSeen` | bin/release.sh:61-61 | an instance in which a smaller release takes over all floating tags |
| `ReleaseTags.OversizedPatchInSeenMajor` | bin/release.sh:61-61 | an instance in which a smaller release takes over the tags of its line and its major but not `latest` |
| `ReleaseTags.Registry.Publish` | bin/release.sh:199-222 | publishing pushes the image under its version and moves exactly the resolved floating tags to it |
| `ReleaseHistory.PublishedAt` | bin/release.sh:216-222 | tag by tag: the version's own tag names the image, a floating tag does exactly if the version is the greatest of its line, and no other tag changes |
| `ReleaseHistory.PublishKeepsAgreement` | bin/release.sh:116-146 | publishing any version, backports included, keeps every floating tag on the greatest release of its line |
| `ReleaseHistory.HistoryAgrees` | bin/release.sh:199-222 | so does any history of publications in any order of versions |
| `ReleaseHistory.HistoryReleases` | bin/release.sh:216-219 | after a history exactly its versions are released besides the old ones, each under the image last published |
| `ReleaseHistory.FloatNamesGreatest` | bin/release.sh:132-134 | `vM.m` exists exactly when the line has a release, and names the image of the greatest |
| `ReleaseHistory.MajorFloatNamesGreatest` | bin/release.sh:135-137 | `vM` exists exactly when the major has a release, and names the image of the greatest |
| `ReleaseHistory.LatestNamesGreatest` | bin/release.sh:138-140 | `latest` exists exactly when there is a release, and names the image of the greatest |
| `ReleaseHistory.RepublishChangesNothing` | bin/release.sh:199-222 | publishing a version again with the image it has changes nothing |

## Left out

- Atomic.AnsweredRunIsAtomic: speaks of runs without a crash, since a crashed call is no whole RPC; `Serial.Serialisable` covers crashes. In the order of starts the blob cache may differ.
- CacheOrder.AnsweredRunIsAtomicInPullOrder: the same of crashes; `CacheOrder.SerialisableInPullOrder` covers them.
- Safety.NoLeakOnceAnswered: assumes that the look for ephemeral content does not fail, because the code leaves the content when it does (`Calls.StatDecides`).
- ReleaseHistory.HistoryAgrees: versions with a number above 2^63 - 1 are excluded, because the shell's test does not compare them (`ReleaseTags.OversizedPatchIsNotSeen`).
- ReleaseTags.NestedIsPrecedence: release tags with leading zeros are excluded; they are no versions under section 2 of Semantic Versioning 2.0.0 and have no precedence.
- Bottle pulling, registry resolution and telemetry are steps that may fail; a failed pull leaves any prefix-closed part of the bottle. That one reference and selector list yield one content throughout a run is assumed.
- What label selectors match inside a bottle: a catalogue says what each reference with its selectors delivers.
- JSON decoding of the docker configuration: the model starts from the decoded table, an absent secret or a malformed one.
- Of the mount helper only one stacked mount per successful call, at most one with the option bind alone per failed call, and one mount less per successful unmount.
- A removal or pull follows mounts at and above the path it is given, not mounts below it; separate paths exclude those.
- Mounts that do not belong to the driver must not lie above the volumes' paths.
- Writes by the pods. A mount without `ro` is writable (`pkg/data/node.go:367-370`) and shows the staging directory, which all targets of a volume share; that a directory holds exactly the bottle's content is said of runs in which no pod writes through such a mount.
- Symbolic links, permissions, file modes and inodes.
- What `cache.Prune` removes: any entries under the cache directory.
- Rejecting a repeated Publish whose options differ from the existing mount: the code does not, so requests for one target agree by obligation.
- The gRPC server, the identity service, Prometheus, logging and Kubernetes events.
- The controller service: single map operations, which would only add easy members.
- The path check command, the command line, Helm charts and documentation.
- In the release script `git`, `dagger`, image building, chart publishing, prerelease targets and exit statuses; with no extra tag to set, no tag moves. `sort -V` only reorders the tags, and no result depends on their order.
