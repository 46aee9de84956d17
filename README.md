# Azure storage migration (azcopy orchestrator), modelled in Dafny

The tool copies Azure blob storage from source accounts to target accounts.
It reads a configuration that lists account pairs. For each pair it does
three things:

- It fills in a blank access key from `az storage account keys list`.
- It decides what to copy: the whole account, the containers named by a Name
  filter, the containers modified since a Date filter's instant, or, for an
  IncludePatterns filter, per-container include directives (`container:*pattern`,
  `container:path`, `container:...dt...` for an after-date filter).
- It queues one `azcopy copy` command per decision.

At the end it announces a counter and awaits every queued command.

The project has five modules:

- `Wrappers`: Option, Result and Outcome.
- `Strings`: the .NET string operations the code relies on, with ordinal
  comparison. These are `char.IsWhiteSpace`, `Trim`, `IndexOf`, `Contains`
  and a single-pass `Replace`.
- `Model` (`MigrationConfig.cs`, `StorageKeys.cs`, `BlobData.cs`): the
  configuration records, the account-name extraction, the `container:value`
  split, the two byte enums and `BlobData.ToString`.
- `AzService` (`AzService.cs`): the azcopy command lines and the
  include-flag switch, the account/container SAS choice, the container
  listing, and the blob listing by prefix or by wildcard with its fallback
  entry. The Azure SDK and the az CLI are function-typed fields of the
  datatype `AzureApi`. A failed request is `None`. The paged listings are
  sequences of pages.
- `AzCopy` (`Migration.cs`): the class `Migration`. Its fields are the
  configuration, the task list `tasks` and the counter `count`. Its methods
  are `Run`, the key lookup, `CopyContainers`, `CopyBlobs` and `Copy`. Each
  method is proved against a function (`RunFrom`, `Dispatch`,
  `ContainersEffect`, `BlobsEffect`) whose properties are proved as lemmas.
  The class invariant `Valid()` states that `count` equals the number of
  tasks without an include filter.

The code as written has several behaviours the model keeps, and proves:

- The include tasks of `CopyBlobs` never raise `count`. Only the
  whole-container copy for a blank directive does, through `CopyContainers`.
  The announced number therefore counts only the whole-copy tasks
  (`AzCopy.Migration.Copy`, `AzCopy.RunCountsWholeCopies`).
- The first include entry with a blank directive copies a container named by
  the raw filter string, colon included, and ends the batch.
- Any `"dt"` in a directive makes it an after-date filter. `Replace` removes
  `"dt"` in one pass, so `"ddtt"` becomes `"dt"`.
- Any failure ends `Run` before `Copy()` is reached.

For the filters `["a:*foo", "b:"]` the code queues two tasks, not one: a
pattern task for `a`, then a whole-container task for the container named
`"b:"`. `count` is 1 (`AzCopy.IncludePatternsStopAtBlankDirective`).

## Model

| member | source | states |
|---|---|---|
| `Strings.Trim` | src/Storage.Migration.AzCopy/Migration.cs:123 | the result has no white space at either end, is the input minus its leading and trailing white space, and is empty exactly when the input is all white space |
| `Strings.IndexOf` | src/Storage.Migration.Service/Model/MigrationConfig.cs:32 | the result is -1 or an index where the pattern occurs |
| `Strings.IndexOfFirst` | src/Storage.Migration.Service/Model/MigrationConfig.cs:32 | wherever the pattern occurs, IndexOf finds an occurrence at or before it: the index found is the first one |
| `Strings.IndexOfChar` | src/Storage.Migration.Service/Model/MigrationConfig.cs:45 | the result is the first index of the character, or -1 exactly when the character is absent |
| `Strings.IndexOfOneChar` | src/Storage.Migration.Service/Model/MigrationConfig.cs:45 | searching for a one-character string gives the same index as searching for the character |
| `Strings.ReplaceCutsAtFirst` | src/Storage.Migration.AzCopy/Migration.cs:166 | for every string, Replace keeps the text before the first occurrence of the pattern, puts the replacement there, and goes on only after that occurrence |
| `Strings.ReplaceCutsAt` | src/Storage.Migration.AzCopy/Migration.cs:166 | for an occurrence of the pattern at i with none before it, Replace is the text before i, the replacement, then the pass over what follows the occurrence |
| `Strings.ReplaceAbsent` | src/Storage.Migration.AzCopy/Migration.cs:166 | a string in which the pattern does not occur is returned unchanged |
| `Strings.RemoveShrinks` | src/Storage.Migration.AzCopy/Migration.cs:164-166 | removing a pattern that occurs makes the string strictly shorter |
| `Strings.RemoveCharRemovesAll` | src/Storage.Migration.Service/Implementation/AzService.cs:256 | removing "*" leaves no '*' in the wildcard needle |
| `Strings.RemoveIsSinglePass` | src/Storage.Migration.AzCopy/Migration.cs:166 | Replace does not rescan its output: "ddtt" without "dt" is "dt", which still contains "dt" |
| `Model.AccountNamesDependOnlyOnEndpoints` | src/Storage.Migration.Service/Model/MigrationConfig.cs:23-24 | the computed account names depend only on the URLs, and a name is a prefix of its host |
| `Model.ExtractName` | src/Storage.Migration.Service/Model/MigrationConfig.cs:28-34 | a name exists exactly when the host contains ".blob"; it is the host before the first ".blob" and contains no ".blob" itself |
| `Model.ExtractContainerName` | src/Storage.Migration.Service/Model/MigrationConfig.cs:43-53 | without ':' the whole filter is the key and the value is empty; with ':' key + ":" + value rebuilds the filter; the key never holds ':' |
| `Model.SplitAtFirstColon` | src/Storage.Migration.Service/Model/MigrationConfig.cs:45-52 | the split happens at the first ':' of the filter |
| `Model.ValueKeepsLaterColons` | src/Storage.Migration.Service/Model/MigrationConfig.cs:52 | "c:a:b" splits into key "c" and value "a:b" |
| `Model.BlobData.ToString` | src/Storage.Migration.Service/Model/BlobData.cs:12-20 | the address always starts with the storage URL |
| `Model.ToStringSplitsBack` | src/Storage.Migration.Service/Model/BlobData.cs:19 | for a container name without '/', the container name and the blob name followed by the query can be read back from the address |
| `Model.ToStringIgnoresBlobWithoutContainer` | src/Storage.Migration.Service/Model/BlobData.cs:14-17 | without a container name the address is the bare storage URL, whatever the name and query |
| `AzService.IncludeFlag` | src/Storage.Migration.Service/Implementation/AzService.cs:54-60 | Pattern gives --include-pattern, After gives --include-after, and Path or any other byte gives --include-path |
| `AzService.IncludeCommandExtendsPlain` | src/Storage.Migration.Service/Implementation/AzService.cs:47-62 | the include command is the plain command followed by " flag=includes" |
| `AzService.CommandRoundTrip` | src/Storage.Migration.Service/Implementation/AzService.cs:47 | parsing a command built from URLs without '"' gives back both URLs and the options after them |
| `AzService.CommandCarriesDirective` | src/Storage.Migration.Service/Implementation/AzService.cs:45-65 | every task's command yields its source and target URLs, then the fixed options and, for an include task, its flag and value |
| `AzService.BlankContainerMeansAccount` | src/Storage.Migration.Service/Implementation/AzService.cs:80-92 | a blank container name gives the account SAS URL, the same as passing no name |
| `AzService.FlattenMembers` | src/Storage.Migration.Service/Implementation/AzService.cs:141-147 | an item is in the collected listing exactly when it is on some page |
| `AzService.GetContainerList` | src/Storage.Migration.Service/Implementation/AzService.cs:127-156 | the result is every container of every page in order; a failed request is rethrown as None |
| `AzService.BlobNamesMembers` | src/Storage.Migration.Service/Implementation/AzService.cs:232-237 | a name is listed exactly when the hierarchy has a blob item with that name; virtual directories are skipped |
| `AzService.MatchingMembers` | src/Storage.Migration.Service/Implementation/AzService.cs:261-264 | a blob is kept exactly when it is listed and its name contains the needle |
| `AzService.GetBlobsListByPrefix` | src/Storage.Migration.Service/Implementation/AzService.cs:225-251 | one entry per blob item of all pages, in listing order, each addressed in the container with its SAS query |
| `AzService.GetBlobsListByWildCardSearch` | src/Storage.Migration.Service/Implementation/AzService.cs:253-278 | one entry per listed blob whose name contains the filter with every '*' removed, in listing order |
| `AzService.GetBlobsList` | src/Storage.Migration.Service/Implementation/AzService.cs:158-221 | a blank value gives one entry holding the SAS URL for the key; otherwise the prefix or wildcard listing is chosen by the value's first character, an empty result becomes one container entry, and a failed request gives the empty list |
| `AzService.EntriesMembers` | src/Storage.Migration.Service/Implementation/AzService.cs:244 | an entry is recorded for a blob exactly when its name was selected |
| `AzService.PrefixListing` | src/Storage.Migration.Service/Implementation/AzService.cs:198-210 | a successful prefix listing is never empty, every entry addresses the filter's container, and a named blob is listed exactly when the hierarchy has it as a blob |
| `AzService.WildcardListing` | src/Storage.Migration.Service/Implementation/AzService.cs:198-210 | a successful wildcard listing is never empty, its needle has no '*', every entry addresses the container, and a named blob is listed exactly when it is listed and contains the needle |
| `AzCopy.FirstNonEmpty` | src/Storage.Migration.AzCopy/Migration.cs:109 | the index of the first key with a non-empty value: every key before it is empty |
| `AzCopy.GetStorageKey` | src/Storage.Migration.AzCopy/Migration.cs:102-113 | a null or empty key list gives ""; it fails exactly when the list is non-empty and every value is empty; otherwise it gives the first non-empty value |
| `AzCopy.ResolveKeepsSuppliedKeys` | src/Storage.Migration.AzCopy/Migration.cs:42-56 | filling a key never overwrites a supplied key and changes no other field |
| `AzCopy.ContainerCopiesAt` | src/Storage.Migration.AzCopy/Migration.cs:117-133 | one whole-container task per name, in order, for the trimmed name on both sides |
| `AzCopy.ClassifyInclude` | src/Storage.Migration.AzCopy/Migration.cs:160-171 | a leading '*' gives a pattern of the rest; otherwise "dt" anywhere gives an after-date filter whose value is the directive with "dt" removed in one pass (`Strings.ReplaceCutsAtFirst`), strictly shorter; otherwise a path with the value unchanged; the three cases are exclusive |
| `AzCopy.BlobCopiesWithoutBlank` | src/Storage.Migration.AzCopy/Migration.cs:137-158 | a batch in which no entry stops it gives, in order, one task per entry (the entry's own copy) and raises count by nothing; CopyBlobs runs it with the blank-directive test and the include copy |
| `AzCopy.BlobCopiesStopAtBlank` | src/Storage.Migration.AzCopy/Migration.cs:138-146 | at the first entry that stops the batch (in CopyBlobs, a blank directive) the tasks are those of the entries before it plus that entry's copy, count rises by exactly one, and nothing after it is read |
| `AzCopy.EntryCopyWholeWhenBlank` | src/Storage.Migration.AzCopy/Migration.cs:142-171 | an entry's task copies whole (carries no include filter) exactly when its directive is blank |
| `AzCopy.BlobCopiesCount` | src/Storage.Migration.AzCopy/Migration.cs:131-171 | when exactly the stopping entries copy whole, the count the batch adds equals the whole-copy tasks it adds |
| `AzCopy.ModifiedSinceMembers` | src/Storage.Migration.AzCopy/Migration.cs:70 | a container is selected exactly when it was modified at or after the cutoff |
| `AzCopy.ModifiedSinceAppend` | src/Storage.Migration.AzCopy/Migration.cs:70 | the selection keeps listing order: it distributes over concatenation |
| `AzCopy.WholeCopiesBound` | src/Storage.Migration.AzCopy/Migration.cs:178 | the whole copies number at most the tasks, and equal them exactly when no task has an include filter |
| `AzCopy.DispatchCountsWholeCopies` | src/Storage.Migration.AzCopy/Migration.cs:58-94 | on every filter path, count rises by the number of whole-copy tasks added |
| `AzCopy.RunKeepsSuppliedKeys` | src/Storage.Migration.AzCopy/Migration.cs:40-95 | the run keeps every account pair in place, changes only blank keys and only appends tasks |
| `AzCopy.RunCountsWholeCopies` | src/Storage.Migration.AzCopy/Migration.cs:36-98 | through the whole run, count keeps step with the whole-copy tasks, however many include tasks are added |
| `AzCopy.SingleReadyAccount` | src/Storage.Migration.AzCopy/Migration.cs:40-95 | with both keys supplied, whatever the hosts, a lone pair adds exactly what its filter dispatch adds (failure included) and the configuration is unchanged |
| `AzCopy.NoFilterCopiesWholeAccount` | src/Storage.Migration.AzCopy/Migration.cs:80-94 | with no filter, one task copies the source account SAS to the target account SAS, and count is 1 |
| `AzCopy.NameFilterCopiesEachContainer` | src/Storage.Migration.AzCopy/Migration.cs:72-74 | the Name filter ["a", "b"] gives two container-SAS tasks in order, and count is 2 |
| `AzCopy.IncludePatternsStopAtBlankDirective` | src/Storage.Migration.AzCopy/Migration.cs:75-77 | ["a:*foo", "b:", "c:x"] gives a pattern task for "a" and a whole copy of the container "b:", never reads "c:x", and count is 1 |
| `AzCopy.BlobCopiesEntryThenStop` | src/Storage.Migration.AzCopy/Migration.cs:138-146 | an entry that does not stop the batch followed by one that does gives exactly their two copies, counted once, whatever follows |
| `AzCopy.ClassifyPattern` | src/Storage.Migration.AzCopy/Migration.cs:160-163 | "*.log" is the pattern ".log" |
| `AzCopy.ClassifyPath` | src/Storage.Migration.AzCopy/Migration.cs:168-171 | "logs" is the path "logs" |
| `AzCopy.ClassifyAfterSinglePass` | src/Storage.Migration.AzCopy/Migration.cs:164-167 | "ddtt" is an after-date filter with value "dt" |
| `AzCopy.DateFilterCopiesRecentContainers` | src/Storage.Migration.AzCopy/Migration.cs:62-71 | whatever the keys (including keys resolved to ""), when both hosts name their accounts, a Date filter copies whole each container modified at or after the parsed cutoff, in listing order, and counts each one |
| `AzCopy.BlankNameCopiesWholeAccount` | src/Storage.Migration.AzCopy/Migration.cs:120-129 | a blank container name copies the whole source account into the whole target account |
| `AzCopy.Migration.constructor` | src/Storage.Migration.AzCopy/Migration.cs:18-34 | a new orchestrator holds the configuration, no tasks and count 0 |
| `AzCopy.Migration.AddTask` | src/Storage.Migration.AzCopy/Migration.cs:131-132 | appends a task; count rises by one for a whole copy only |
| `AzCopy.Migration.CopyContainer` | src/Storage.Migration.AzCopy/Migration.cs:119-132 | one iteration of CopyContainers: fails with the malformed host when an account name cannot be read, otherwise appends the trimmed container's whole copy and raises count by one |
| `AzCopy.Migration.CopyContainers` | src/Storage.Migration.AzCopy/Migration.cs:115-134 | appends one whole-container task per name and raises count by the number of names, keeping the class invariant |
| `AzCopy.Migration.CopyEntry` | src/Storage.Migration.AzCopy/Migration.cs:148-171 | an entry with a non-blank directive: fails with the malformed host when an account name cannot be read, otherwise appends its include copy for the trimmed key and leaves count alone |
| `AzCopy.Migration.CopyFilter` | src/Storage.Migration.AzCopy/Migration.cs:140-171 | one iteration of CopyBlobs: reports whether the directive is blank, and appends that entry's copy (whole for a blank directive, raising count by one) or the naming failure |
| `AzCopy.Migration.CopyBlobs` | src/Storage.Migration.AzCopy/Migration.cs:136-173 | appends the include tasks of the batch without raising count, and hands a blank directive to CopyContainers before returning |
| `AzCopy.Migration.ProcessAccountAt` | src/Storage.Migration.AzCopy/Migration.cs:42-94 | one loop iteration: keys are resolved and written back, then the filter is dispatched |
| `AzCopy.Migration.DispatchAccount` | src/Storage.Migration.AzCopy/Migration.cs:58-94 | the switch on the filter appends the tasks and count of the chosen path |
| `AzCopy.Migration.Run` | src/Storage.Migration.AzCopy/Migration.cs:36-98 | the final configuration, tasks, count and outcome are those of the run over all account pairs; on success every task's command is awaited, and on failure none is |
| `AzCopy.Migration.Copy` | src/Storage.Migration.AzCopy/Migration.cs:175-186 | announces count and awaits every task's command; the announced number is at most the tasks awaited, and equals it exactly when no task has an include filter |

## Left out

- URI parsing: each endpoint carries the host that `System.Uri` reports. Uri's host lowercasing and its exceptions on malformed URLs are not modelled.
- Culture-sensitive comparison: `String.Contains(string)` and `Replace(string, string)` are ordinal in .NET, as modelled. `IndexOf(string)` (`MigrationConfig.cs` lines 32 and 45) is culture-sensitive in .NET and is assumed ordinal here. Under ICU the two can differ even for the ASCII patterns ".blob" and ":". For example, `"\r\n".IndexOf("\n")` is -1, and ignorable characters such as U+00AD are skipped inside a match.
- Characters: a Dafny `char` is a Unicode scalar value, not a UTF-16 code unit. Indices therefore agree with .NET's only for text within the Basic Multilingual Plane.
- Null strings and arrays in the configuration are modelled as "" and as empty sequences. This changes behaviour wherever the source dereferences them, and the model does not capture those exceptions:
  - A null `Filters` entry throws a NullReferenceException at `container.Trim()` (`Migration.cs` line 123) or at `filter.IndexOf(":")` (`MigrationConfig.cs` line 45). In the model the same entry is "" and the run goes on. A Name entry then becomes a whole-account copy (`AzCopy.BlankNameCopiesWholeAccount`). An IncludePatterns entry becomes a whole-account copy that ends the batch.
  - A null Date `Value` throws at `Migration.cs` line 69. In the model it is "" and reaches `parseDate`.
  - A null `Filters` array, or `Run` on a configuration that was never read (constructor lines 26-30), throws a NullReferenceException. Neither is modelled.
- `count` is an `int` in the source. Its 32-bit wrap-around is not modelled, since it needs more than 2^31 tasks.
- Reading `Migration.Config.json` and deserialising JSON are left out. The constructor takes the configuration already read.
- Logging, the `Stopwatch` and the timestamps are left out.
- Asynchrony and concurrency are left out. A queued task is its `azcopy` command line. Tasks already started when an exception ends `Run` are not modelled.
- `Command.cs` is not part of this model. `LogIn` and `SelectSubscription` have no separate effect: the key list is a function of the subscription, the resource group and the account.
- The `az` CLI output, the Azure SDK requests, SAS signing, container creation and the one-second delay are functions of `AzureApi`.
  - A SAS request that fails inside the `try` with a `RequestFailedException` is caught in the source and yields "". That is the value those functions return.
  - Exceptions raised before the `try` are not modelled. These come from `new Uri`, `new StorageSharedKeyCredential` (a key that is not Base64 throws a `FormatException`) and `new BlobServiceClient`. They run outside the `try` in three places:
    - `GenerateBlobStorageSASUrl` (`AzService.cs` lines 70-73);
    - `GetContainerList` (lines 130-133);
    - `GetBlobsList` (lines 161-164).
  - In the source such an exception leaves the method and ends `Run` (`Migration.cs` line 65 on the Date path, and lines 83, 120 and 149). The model's `accountSas`, `containerSas` and container listing never throw: the SAS functions always return a URL, and the listing fails only through its `None` request failure.
  - `DateTimeOffset.Parse` is the parameter `parseDate`.
  - The server-side meaning of the hierarchy prefix is not modelled: the pages the SDK returns are given.
- `GetBlobClient` is taken never to return null, as the SDK guarantees. The `item != null` checks are therefore not modelled.
- `Migration.Copy(string, string)` (lines 188-199) is never called. It is not modelled.
- `GetBlobsList` is not called by the orchestrator. It is modelled on its own.
