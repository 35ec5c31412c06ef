# Verified models of the Pipecat iOS tooling

This project models four pieces of the repository in Dafny and proves what they are relied on for:
the generator of the Xcode project, the unfiller of release notes, the streaming speech call of the
native library, and the verified download and bundling of voice assets.
`dafny verify dfyconfig.toml` checks all of it.

## The Xcode project (`scripts/generate_project.py`)

`Json` and `Printer` give the printer and a parser that undoes it; strings are JSON strings as in
section 7 of RFC 8259, characters are Unicode scalar values. `ProjectModel` lists the `obj` calls of a
run as data, `ProjectGraph` proves that they form a closed, acyclic graph in which nothing is
overwritten or orphaned, and `Readback` that a parser of the written text finds exactly this graph in it.
`GenerateProject` has the program itself: a `Generator` with the `objects` dictionary, whose `Generate`
writes exactly that text.
`ProjectFile` reads single objects off the text: what each configuration sets, which files each phase lists.
`TeamPattern`, `TeamSearch` and `SigningTeam` find the first match of the signing-team pattern in that text,
and `TeamLetters` spells the pattern out in literal characters, as `Characters` does for the classes in it.
The shortened hash is a parameter; it is assumed to have its shape and to tell the keys of one run apart.

What came out: a run reads back the team it was generated with unless a file name, the package
address or its revision hides a team of its own (`SigningTeam.TeamFixedPoint`); `SigningTeam.HostileName`
is such a file name.

## Release notes (`pipecat/scripts/release-changelog.py`)

`Paragraphs` has the split and shows which lists of parts are splits, `Unfill` the continuation
substitution, `Entries` the pull-request reference, `CodeBlocks` the code test, `Reclassified` what
unfilling does to it, `Changelog` the loop of `process`, `Idempotence` a second run, `Sections`,
`Headings` and `Extraction` the sections. Each regular expression is an explicit scanner; `InCharacters` says
what each does by positions and literal characters alone.

What came out:

- `process` is not idempotent on every text. `Idempotence.ProcessIdempotent` says exactly when it is: a
  second run changes the text if and only if some paragraph that is unfilled, and does not come out as
  a code block, has its first reference at the very start of its joined text after a separator, or right
  after a bare, indented list marker on a later line. `Reclassified.ComesOutAsCode` says when a paragraph
  that is no code block comes out as one: when its joined text, without the first reference and what
  follows that on its line, has a deeply indented line and no list item.
- Unfilling can create a heading: `##`, a line break and an indented bracket are joined into `## [`.
  `Headings.HeadingsKept` counts them exactly, and with headings only at paragraph starts unfilling the
  text is unfilling its preamble and each of its sections if and only if there is none
  (`Extraction.SectionsCommute`). Which section is then found, says `Extraction.ExtractExact`: the same one
  before and after unfilling, unless unfilling completes or breaks the heading asked for. For a
  version without a space it does neither, and extraction and unfilling commute. Both conditions are
  needed: `Extraction.TornHeadingAppears` and `Extraction.SpacedVersionAppears` are texts whose version is found
  after unfilling only.

## The speech call (`native/phonon-ffi/src/lib.rs`)

`Speech` is a state machine over the steps of the calling thread (which runs the decoder), the
collector thread and any canceller. Every interleaving is a run; the theorems are about all runs.
The decoder may send any finite sequence of chunks and end in any way at any time.

What came out: the comment above the function says 1 on cancellation. A call that is cancelled before
it returns gives 1 unless its arguments are bad, the collector thread cannot be started or one of the two
threads panics, and -1 exactly then (`Speech.CancelledBeforeReturn`); `Speech.CancelledPanicFails` is a run
in which the decoder panics after the cancellation. A panic of the collector thread is one of its own
code: the callback is a C function, across which no panic unwinds.

## Download and bundling (`scripts/fetch_pocket_tts.py`, `scripts/bundle_runtime.py`)

`Paths` and `Manifest` have the checks of the manifest, `Fetch` the retry plan as a function of arbitrary
responses, `Download` the class `Disk` on which `fetch_file` writes and which records its state after each
write, `Assets` and `Install` `fetch_assets` and `verify_assets`, `Bundle` `bundle_models`, `Extensions`
the loop that makes frameworks of Python extensions. SHA-256 is a function parameter.

What came out:

- An asset whose path is another's plus `.partial` is destroyed when the other is fetched. From any disk,
  a run that returns normally leaves all assets verified if and only if no asset is the temporary
  file of a later one that has to be fetched (`Assets.RunExact`; on an empty disk, of any later one). The
  manifest check does not exclude this: `Install.ValidManifestLoses` is a valid manifest with such a run.
- The loop over the extensions leaves no `.so` file below the two roots (`Extensions.NoExtensionLeft`). Each
  ends up in a framework of its own if and only if no two that share a dotted name differ in marker or
  bytes, and none has the name `Info.plist` without the bytes of the property list, which is written
  over it (`Extensions.RelocationExact`). A dot in a folder name can make two dotted names equal; the folder
  `Info` with the file `plist.so` gives the taken one (`Extensions.TakenIsLost`).

## Model

| member | source | states |
|---|---|---|
| Json.LiteralRoundTrip | scripts/generate_project.py:36 | a printed string is read back exactly by a reader of RFC 8259 strings, whatever follows it |
| Json.EscapeIsPrintable | scripts/generate_project.py:36 | only printable ASCII is written |
| Json.IntegerRoundTrip | scripts/generate_project.py:36 | a printed integer is read back exactly when no digit follows |
| Json.ShortEscapes | scripts/generate_project.py:36 | which characters are written by a two-character escape, and by which; which stand for themselves |
| Printer.RoundTrip | scripts/generate_project.py:22-36 | a parser recovers the rendered value at every depth, entry order included, and leaves the text after it |
| Printer.EntriesRoundTrip | scripts/generate_project.py:24-33 | the same for the entries of a dictionary up to its brace |
| Printer.ItemsRoundTrip | scripts/generate_project.py:34-35 | the same for the items of a list up to its parenthesis |
| Printer.RenderInjective | scripts/generate_project.py:22-36 | different values never print alike, even at different depths |
| Printer.Layout | scripts/generate_project.py:22-33 | one entry a line, indented by one tab for each dictionary around it, closing braces too |
| ProjectGraph.FileCallsGood | scripts/generate_project.py:49-70 | the file loop gives every object a new key, references only earlier ones, and uses exactly the keys of accepted sources |
| ProjectGraph.CallsGood | scripts/generate_project.py:49-285 | in a whole run no two objects share a key and every reference is to an earlier object |
| ProjectGraph.PhasesPartition | scripts/generate_project.py:49-70 | by the end of its name, each file is in the group and in the sources or the resources phase once, or not at all |
| ProjectGraph.CollectInOrder | scripts/generate_project.py:49-70 | the three lists keep the order of the listing |
| ProjectGraph.AllReferenced | scripts/generate_project.py:71-285 | every object but the project is referred to by a later one |
| ProjectGraph.NothingOverwritten | scripts/generate_project.py:16-19 | the dictionary holds one object per call, in order |
| GenerateProject.Generator.AddFiles | scripts/generate_project.py:48-70 | the loop over the listing makes exactly the specified objects and lists |
| GenerateProject.Generator.Configurations | scripts/generate_project.py:224-255 | the dictionary then has the debug build, the release build and their list, provided their identifiers differ |
| Readback.ProjectReads | scripts/generate_project.py:16-295 | the written text is the header and one document; its objects are those of the calls, in order, under distinct identifiers; each refers to earlier ones only, each but the project is referred to by a later one, and the project is the root |
| ProjectFile.FileReads | scripts/generate_project.py:49-62 | in the text, each source file has its path and its kind under the identifier of its name |
| ProjectFile.BuildReads | scripts/generate_project.py:63-70 | each but a header has a build file that refers to it |
| ProjectFile.PhasesRead | scripts/generate_project.py:71-140 | the group and the sources, frameworks and resources phases list exactly the right identifiers |
| ProjectFile.ConfigurationsRead | scripts/generate_project.py:224-255 | in the text, Debug is unoptimised with DEBUG added to the base's conditions, Release optimised with the base's; every other setting is the base's |
| ProjectFile.TeamRead | scripts/generate_project.py:221-255 | both configurations of the target have the team of the run |
| ProjectFile.ListsRead | scripts/generate_project.py:249-255 | the two lists of configurations, Release being the default |
| ProjectFile.PackageRead | scripts/generate_project.py:95-107 | the package is required from its address at its revision, and what is linked is its product |
| ProjectFile.TargetReads | scripts/generate_project.py:257-269 | the target runs its five phases in order, with its configurations and the package's product |
| ProjectFile.RootRead | scripts/generate_project.py:270-285 | the project has its configurations, the group with the sources, the one target and the package |
| ProjectFile.DocumentRead | scripts/generate_project.py:286-295 | the document's versions and its root |
| GenerateProject.Generator.Generate | scripts/generate_project.py:39-295 | the text written is the rendering of the graph for the listing, the package and the carried team; it reads back as it, and its configurations are as they should be |
| TeamPattern.MatchFound | scripts/generate_project.py:44 | any way to match the pattern captures what the scanner captures (its character classes: TeamLetters.SpelledIsValid) |
| TeamPattern.FoundMatches | scripts/generate_project.py:44 | what the scanner captures is a match of the pattern (its character classes: TeamLetters.SpelledIsValid) |
| TeamPattern.SearchSplits | scripts/generate_project.py:44 | the leftmost match is decided piece by piece between semicolons |
| TeamLetters.SpelledIsValid | scripts/generate_project.py:44 | the white space and the letters of a match are exactly those listed |
| TeamLetters.AssignsExact | scripts/generate_project.py:44 | a team is captured at a position exactly if an assignment of it, spelled out, starts there |
| TeamLetters.SearchExact | scripts/generate_project.py:44 | the search captures the team of the leftmost assignment, spelled out in characters, and nothing if there is none |
| TeamLetters.FirstIsFound | scripts/generate_project.py:44 | conversely, the team of the leftmost assignment is what it captures |
| TeamLetters.FoundIsFirst | scripts/generate_project.py:44 | a team is found exactly if it is that of the leftmost assignment |
| TeamLetters.TeamFound | scripts/generate_project.py:44 | every string of capitals and digits is found in its assignment, bare or quoted |
| TeamLetters.FoundIsTeam | scripts/generate_project.py:44 | nothing else is found |
| TeamLetters.OwnTeamFound | PipecatVoice.xcodeproj/project.pbxproj:346 | the team of the repository's own project is |
| TeamSearch.SearchEntries | scripts/generate_project.py:24-44 | the search in a printed dictionary finds its first team in printing order, or goes on behind it |
| SigningTeam.GeneratedTeam | scripts/generate_project.py:221-295 | the search in a generated project finds a team hidden in the caller's strings, else the project's own |
| SigningTeam.TeamFixedPoint | scripts/generate_project.py:41-46 | regeneration keeps the team (or none) exactly when the caller's strings hide no other |
| SigningTeam.TeamSurvives | scripts/generate_project.py:41-46 | the team of the first assignment in the old file is that of the new one, if the caller's strings hide none |
| SigningTeam.CarriedExact | scripts/generate_project.py:41-46 | the team carried over is that of the first assignment in an existing project, and no other |
| SigningTeam.NothingHidden | scripts/generate_project.py:44-62 | strings without the keyword hide no team |
| SigningTeam.HostileName | scripts/generate_project.py:49-65 | a file name for which a project without a team reads back one |
| Paragraphs.WholeOfSplit | pipecat/scripts/release-changelog.py:65-70 | splitting then joining is the identity |
| Paragraphs.SplitOfWhole | pipecat/scripts/release-changelog.py:65 | well-formed parts are recovered from their text |
| Paragraphs.SplitExact | pipecat/scripts/release-changelog.py:38 | exactly the well-formed lists are splits |
| InCharacters.SplitInCharacters | pipecat/scripts/release-changelog.py:38 | the split by positions of line breaks, spaces and tabs |
| Unfill.JoinIsByLines | pipecat/scripts/release-changelog.py:60 | the substitution glues each continuing line to the one before and touches no other line |
| InCharacters.GlueExact | pipecat/scripts/release-changelog.py:39-43 | which lines continue the one before, in characters, and how they are glued |
| Unfill.JoinNormalForm | pipecat/scripts/release-changelog.py:60 | for a paragraph the join is idempotent, and a remaining break ends it or precedes a list item or unindented text |
| Unfill.JoinNotIdempotent | pipecat/scripts/release-changelog.py:39 | with a blank line inside, the join is not idempotent |
| Entries.InsertSplits | pipecat/scripts/release-changelog.py:61 | the reference substitution inserts a line break and one space before the first reference |
| InCharacters.InsertExact | pipecat/scripts/release-changelog.py:40-61 | the first reference in the text, and only it, is replaced |
| Entries.SecondUnfill | pipecat/scripts/release-changelog.py:59-61 | exactly when unfilling an entry again changes it |
| CodeBlocks.IsCodeAfterBreak | pipecat/scripts/release-changelog.py:47-56 | a leading line break does not change the classification |
| InCharacters.CodeExact | pipecat/scripts/release-changelog.py:41-56 | what a code block is, by the characters at the beginnings of lines |
| Reclassified.ComesOutAsCode | pipecat/scripts/release-changelog.py:47-61 | when a paragraph that is no code block is one after unfilling, read off its joined text |
| Reclassified.ItemBecomesCode | pipecat/scripts/release-changelog.py:47-61 | a nested list item that does |
| Changelog.OnlyEntriesChange | pipecat/scripts/release-changelog.py:64-70 | separators and code blocks, both told by their characters, come out unchanged at their places, every other paragraph unfilled |
| Changelog.ParagraphProcessed | pipecat/scripts/release-changelog.py:64-70 | a text without a blank line is kept if its characters make it a code block, and else unfilled |
| Changelog.DeepKept | pipecat/scripts/release-changelog.py:42-56 | a line indented by four spaces or more keeps such a text, if no line is a list item |
| Changelog.FencedKept | pipecat/scripts/release-changelog.py:41-50 | a fence keeps it |
| Changelog.OtherUnfilled | pipecat/scripts/release-changelog.py:47-61 | any other is unfilled |
| Changelog.UnfillEach | pipecat/scripts/release-changelog.py:66-69 | the loop overwrites exactly the even positions |
| Changelog.ProcessInPlace | pipecat/scripts/release-changelog.py:64-70 | the in-place loop computes the specified text |
| Changelog.ContentKept | pipecat/scripts/release-changelog.py:64-70 | the characters other than space, tab and line feed are kept in order |
| Changelog.UnfillAddsOneBreak | pipecat/scripts/release-changelog.py:59-61 | unfilling adds at most one line break to the joined text |
| Idempotence.ResplitIsSplit | pipecat/scripts/release-changelog.py:64-70 | how processed text splits again |
| Idempotence.OnParagraph | pipecat/scripts/release-changelog.py:64-70 | a second run departs inside a paragraph exactly if it is unstable |
| Idempotence.ProcessIdempotent | pipecat/scripts/release-changelog.py:64-70 | processing twice equals processing once exactly if no paragraph is unstable |
| Idempotence.ProcessIdempotentOnEntries | pipecat/scripts/release-changelog.py:64-70 | it does when every first reference has entry text before it on its joined line |
| Idempotence.ProcessNotIdempotent | pipecat/scripts/release-changelog.py:64-70 | a text on which it does not |
| Sections.SectionsPartition | pipecat/scripts/release-changelog.py:44 | cutting at every heading line gives pieces that concatenate to the text, each with one heading line |
| Sections.ExtractIsFirstSection | pipecat/scripts/release-changelog.py:73-80 | for a version without a line break, extraction returns the first section with that heading or fails if there is none |
| Sections.ExtractInCharacters | pipecat/scripts/release-changelog.py:73-80 | where the extracted section begins and ends, in characters, and when there is none |
| Headings.HeadingsKept | pipecat/scripts/release-changelog.py:59-70 | unfilling keeps every heading line and adds one for each torn heading |
| Extraction.SectionsCommute | pipecat/scripts/release-changelog.py:44-80 | with headings only at paragraph starts, the preamble and the sections of the unfilled text are the unfilled preamble and sections exactly if no heading is torn |
| Extraction.ExtractExact | pipecat/scripts/release-changelog.py:64-80 | then extraction finds the same section before and after unfilling exactly if that keeps its heading and gives the heading to none before; if so, the results correspond |
| Extraction.ExtractCommutes | pipecat/scripts/release-changelog.py:64-80 | extraction and unfilling commute when no heading is torn and unfilling changes in no section whether it has the heading asked for |
| Extraction.HeadOfUnfilled | pipecat/scripts/release-changelog.py:59-74 | when an unfilled paragraph starts with the heading of a version |
| Extraction.ExtractCommutesPlain | pipecat/scripts/release-changelog.py:64-80 | for a version without a space or line break it is enough that no heading is torn |
| Extraction.TornHeadingAppears | pipecat/scripts/release-changelog.py:64-80 | a text whose torn heading is found after unfilling only |
| Extraction.SpacedVersionAppears | pipecat/scripts/release-changelog.py:64-80 | a text without torn heading whose version, which has a space, is found after unfilling only |
| Speech.RunsAreConsistent | native/phonon-ffi/src/lib.rs:110-156 | every step of every thread keeps the chunks in place and the verdict right |
| Speech.DeliveredInOrder | native/phonon-ffi/src/lib.rs:123-133 | the chunks given to the callback are a beginning of those sent, and these of the decoder's output |
| Speech.CompletedMeansDelivered | native/phonon-ffi/src/lib.rs:120-142 | status 0 means success, every chunk delivered in order and once, every callback true |
| Speech.CallsAfterCancel | native/phonon-ffi/src/lib.rs:85-132 | after the token is set at most one more callback begins |
| Speech.NoCallAfterRefusal | native/phonon-ffi/src/lib.rs:124-131 | after a callback returned false none begins |
| Speech.DroppedReceiverIsCancellation | native/phonon-ffi/src/lib.rs:133-141 | a decoder that lost its receiver makes the call return 1 |
| Speech.SetTokenRefuses | native/phonon-ffi/src/lib.rs:117-119 | a token set before the call gives 1 without decoder or callback |
| Speech.BadArgsFail | native/phonon-ffi/src/lib.rs:111-116 | bad arguments give -1 without a callback |
| Speech.StatusMeaning | native/phonon-ffi/src/lib.rs:98-156 | what each status says, panics included |
| Speech.TokenHasCause | native/phonon-ffi/src/lib.rs:117-132 | the token is set and a chunk dropped only if it was set before, a thread set it, or a callback returned false |
| Speech.UndisturbedCall | native/phonon-ffi/src/lib.rs:110-142 | a call that nobody cancels and in which nothing panics ends as its decoder does, with every chunk delivered |
| Speech.CancelledBeforeReturn | native/phonon-ffi/src/lib.rs:98-156 | exactly when a call that is cancelled before its return gives 1, in every run |
| Speech.CancelledPanicFails | native/phonon-ffi/src/lib.rs:117-142 | a run that is cancelled, then loses its decoder to a panic, and returns -1 |
| Speech.RunsAreBounded | native/phonon-ffi/src/lib.rs:122-142 | the steps of a run are bounded by a measure that cancelling does not raise |
| Speech.Progress | native/phonon-ffi/src/lib.rs:122-142 | some thread can step until the call returns, and none afterwards |
| Speech.CallTerminates | native/phonon-ffi/src/lib.rs:110-156 | runs are bounded, a run that cannot go on has returned, and then no callback is in progress |
| Speech.QuietAfterReturn | native/phonon-ffi/src/lib.rs:110-156 | after the return only the token can change |
| Paths.RelativePathExact | scripts/fetch_pocket_tts.py:20-25 | accepted are the dot and the paths made of proper names, nothing else |
| Manifest.CheckEntry | scripts/fetch_pocket_tts.py:40-47 | one entry is accepted exactly if it is in order and new |
| Manifest.LoadManifest | scripts/fetch_pocket_tts.py:28-50 | accepts exactly the valid manifests: header, entries, distinct paths, at least one |
| Manifest.ValidExact | scripts/fetch_pocket_tts.py:28-50 | the valid manifests, character by character |
| Manifest.HeaderProblemExact | scripts/fetch_pocket_tts.py:28-37 | which problem of the header is reported |
| Manifest.AssetIsDeep | scripts/fetch_pocket_tts.py:37-41 | an asset lies in a folder, never at the top |
| Manifest.AssetsDistinct | scripts/fetch_pocket_tts.py:53-57 | different entries have different places |
| Install.AssetPlace | scripts/fetch_pocket_tts.py:53-57 | below the destination an asset has the manifest's path behind the cache folder, and the manifest's size and checksum |
| Install.AssetVerifies | scripts/fetch_pocket_tts.py:60-64 | it verifies exactly if the file there has this size and checksum |
| Fetch.RetryArithmetic | scripts/fetch_pocket_tts.py:84-111 | at most `attempts` requests, the waits sum to 2^(requests-1) - 1, a denied request stops at once |
| Fetch.FetchedMatches | scripts/fetch_pocket_tts.py:87-102 | what is installed is what the last response delivered, and has the pinned size and checksum |
| Fetch.TryExact | scripts/fetch_pocket_tts.py:87-102 | a response is installed exactly if it delivers bytes of the pinned size and checksum |
| Assets.FetchIsBounded | scripts/fetch_pocket_tts.py:77-111 | at most three requests for an asset; when it fails earlier, the last was denied with 401, 403 or 404 |
| Download.Disk.ReadBody | scripts/fetch_pocket_tts.py:87-98 | the inner loop writes the response to the temporary file, which never outgrows the size |
| Download.Disk.Attempt | scripts/fetch_pocket_tts.py:85-102 | one attempt installs matching bytes or changes only the temporary file |
| Download.Disk.Retry | scripts/fetch_pocket_tts.py:84-111 | the loop follows the retry plan |
| Download.Disk.FetchFile | scripts/fetch_pocket_tts.py:77-113 | after every write the destination holds its prior bytes or matching ones; the outcome and the files at the end |
| Download.InstallSafety | scripts/fetch_pocket_tts.py:77-113 | a normal return verifies, any other end leaves the destination, no temporary file is left |
| Assets.VerifyAssets | scripts/fetch_pocket_tts.py:67-74 | succeeds exactly if every asset verifies |
| Assets.StaysVerified | scripts/fetch_pocket_tts.py:120-130 | a verified asset stays verified unless it is another's temporary file |
| Assets.FetchedAll | scripts/fetch_pocket_tts.py:120-130 | from any disk a normal return leaves every asset verified, if none is the temporary file of a later one |
| Assets.ClashDestroys | scripts/fetch_pocket_tts.py:80-113 | otherwise the earlier asset is gone |
| Assets.RunExact | scripts/fetch_pocket_tts.py:116-130 | from any disk, exactly when a normal return leaves every asset verified: no clash with a later asset that does not verify, or that was itself destroyed |
| Assets.FirstRunExact | scripts/fetch_pocket_tts.py:116-130 | on an empty disk it is enough, and needed, that no asset is the temporary file of a later one |
| Assets.DownloadsMissing | scripts/fetch_pocket_tts.py:119-130 | a run downloads exactly the entries that did not verify |
| Assets.SecondRunIdle | scripts/fetch_pocket_tts.py:120-123 | a second run downloads nothing and changes no file |
| Assets.FetchEach | scripts/fetch_pocket_tts.py:119-130 | the loop does what the specification says and at every write keeps verified assets and manifest.json |
| Assets.FetchAssets | scripts/fetch_pocket_tts.py:116-137 | stopped at any write, no asset has become unverified and manifest.json has changed only if all verify |
| Install.ManifestSound | scripts/fetch_pocket_tts.py:38-57 | the assets of a valid manifest meet what the download needs; when one is another's temporary file |
| Install.ValidManifestLoses | scripts/fetch_pocket_tts.py:28-130 | a valid manifest and a network that supplies all its assets, with which a run returns normally and an asset is missing |
| Bundle.CopyTree | scripts/bundle_runtime.py:18-24 | which files a copied tree holds, ignored names left out |
| Bundle.IgnoredExact | scripts/bundle_runtime.py:23 | which names are ignored |
| Bundle.ValidatePhonon | scripts/build_options.py:38-54 | the private package is complete exactly if all required files exist |
| Bundle.PackageExact | scripts/build_options.py:38-54 | which files a complete private package has |
| Bundle.CopyAssets | scripts/bundle_runtime.py:40-45 | the loop copies every asset and the manifest |
| Bundle.BundleModels | scripts/bundle_runtime.py:27-48 | passes its checks exactly if the manifest is there and valid, all assets verify and an enabled private package is complete, and otherwise changes nothing; it then succeeds, unless the bundle overlaps the sources |
| Bundle.BundleExact | scripts/bundle_runtime.py:35-48 | the bundle holds exactly the assets and manifest.json; below phonon nothing but, if enabled, files below model and voices; the rest is unchanged |
| Bundle.AssetBundled | scripts/bundle_runtime.py:33-45 | each asset is copied from its place among the models to the same place in the bundle, the manifest next to them |
| Bundle.BundlePhonon | scripts/bundle_runtime.py:46-48 | an enabled build holds the private files except ignored names |
| Bundle.BundleVerifies | scripts/bundle_runtime.py:40-45 | the bundled assets verify |
| Extensions.Bundler.TurnAll | scripts/bundle_runtime.py:95-116 | the loop over the extensions |
| Extensions.SameMarker | scripts/bundle_runtime.py:98-104 | equal markers mean equal dotted names |
| Extensions.RelocationExact | scripts/bundle_runtime.py:95-116 | all extensions are placed, with property list, and marker and origin naming each other, exactly if none collide and none is overwritten by its property list |
| Extensions.PlacedSpelled | scripts/bundle_runtime.py:97-116 | where a placed extension, its property list, marker and origin are, and what the two texts say |
| Extensions.OthersStay | scripts/bundle_runtime.py:95-116 | no other file outside Frameworks changes |
| Extensions.StemsRelocate | scripts/bundle_runtime.py:95-116 | with a stem in every name, they collide exactly if two dotted names are equal |
| Extensions.NoExtensionLeft | scripts/bundle_runtime.py:95-101 | no `.so` file is left below the two roots |
| Extensions.PlainFoldersRelocate | scripts/bundle_runtime.py:95-116 | with folder names free of dots and distinct folder and stem they all are, exactly if Info/plist, should it be there, is the property list already |
| Extensions.DottedInjective | scripts/bundle_runtime.py:98 | without dots in folder names the dotted name determines folder and stem |
| Extensions.DottedFolderClashes | scripts/bundle_runtime.py:98 | with a dot two folders can share a name |
| Extensions.TakenIsLost | scripts/bundle_runtime.py:98-116 | the file plist.so in a folder Info ends up as the property list |

## Left out

- Extraction.ExtractCommutes: one direction only, since two sections can come out alike, so that a wrong one is no different text; which section is found is exact in Extraction.ExtractExact.
- Extraction.SectionsCommute: headings inside a paragraph are left to Headings.HeadingsKept, which has no such condition.
- Extensions.RelocationExact: the tools `install_name_tool` and `codesign`, which rewrite the executable in place afterwards, are not modelled; an executable has the bytes that were moved.
- Bundle.BundleModels: says nothing about the result when the bundle's two voice folders and the repository's folders lie inside each other, and assumes that copying an existing file does not fail.
- Download.Disk.FetchFile: removing the temporary file is assumed to succeed, and folders are not files of the disk.
- Assets.FetchAssets: a path that is a folder in one entry and a file in another is not modelled.
- Manifest.LoadManifest: missing keys and values of other JSON types end the original with KeyError or TypeError before these checks; they are not modelled. The class of word characters is a parameter.
- Paths.RelativePathExact: symbolic links are not resolved, so the escape check of `asset_path`, which compares resolved paths, is not part of this model.
- Speech.CallTerminates: assumes that `run` and each callback end, as the original does.
- SHA-256, HTTP, code signing, property lists, the scheme file, printing of progress and command lines: parameters or omitted.
- The names, paths and flags of the remaining fixed objects, and the target's and the project's own settings: transcribed in `ProjectModel`, not characterised.
- The order of `sorted(...iterdir())` in the generator and of `rglob` in the bundler: the listing is taken as given, with distinct names.
- `re.escape`, `argparse` and `strip_heading` of the changelog script: the heading is matched literally, and the heading line is not stripped.
- Lone surrogates in strings: characters are Unicode scalar values.
- `phonon_load`, `write_error`, raw pointers and the decoder's internals in the native library.
- `scripts/setup.py`, `scripts/stage_python.py`, `scripts/build_native.py`, `pipecat/scripts/check_licenses.py`, `pipecat/docs` and `pipecat/examples`: process plumbing, lookups and wiring that would add only easy members.
- The rest of `main` in `scripts/bundle_runtime.py`: copies of fixed folders.
