/** Migration.cs: the orchestrator. For each configured account pair it fills
    in blank access keys, chooses containers or blobs by the pair's filter and
    appends one copy task per choice; at the end it awaits every task. */
module AzCopy {
  import opened Wrappers
  import opened Strings
  import opened Model
  import opened AzService

  /** The exceptions that end Run. */
  datatype Error =
    | MalformedAccountUrl(host: string)       // ExtractName: no ".blob" in the host, the slice [..-1] throws
    | NoNonEmptyKey(account: string)          // GetStorageKey: First() over no non-empty key value
    | ContainerListingFailed(account: string) // GetContainerList rethrows RequestFailedException
    | UnparsableDate(value: string)           // DateTimeOffset.Parse of the Date filter's value

  // ---------------------------------------------------------------------------
  // Access keys

  /** `x.Value ?? string.Empty` */
  function KeyValue(k: StorageKeys): string {
    match k.Value
    case None => ""
    case Some(v) => v
  }

  /** The index of the first key with a non-empty value, or |keys| if there is none. */
  function FirstNonEmpty(keys: seq<StorageKeys>): (i: nat)
    ensures i <= |keys|
    ensures forall j :: 0 <= j < i ==> IsNullOrEmpty(KeyValue(keys[j]))
    ensures i < |keys| ==> !IsNullOrEmpty(KeyValue(keys[i]))
  {
    if keys == [] then 0
    else if !IsNullOrEmpty(KeyValue(keys[0])) then 0
    else 1 + FirstNonEmpty(keys[1..])
  }

  /** GetStorageKey: after selecting the subscription, list the account's keys;
      "" for a null or empty list, otherwise the first non-empty value. When
      the list has entries but every value is null or empty, First() throws. */
  function GetStorageKey(api: AzureApi, subscription: string, resourceGroup: string, accountName: string)
    : (r: Result<string, Error>)
    ensures var keys := api.storageKeys(subscription, resourceGroup, accountName);
      (keys.None? || keys.value == []) ==> r == Success("")
    ensures var keys := api.storageKeys(subscription, resourceGroup, accountName);
      r.Failure? <==> keys.Some? && keys.value != [] && forall j :: 0 <= j < |keys.value| ==> KeyValue(keys.value[j]) == ""
    ensures var keys := api.storageKeys(subscription, resourceGroup, accountName);
      r.Success? && keys.Some? && keys.value != [] ==>
        r.value != "" &&
        exists i :: 0 <= i < |keys.value| && keys.value[i].Value == Some(r.value) &&
          forall j :: 0 <= j < i ==> KeyValue(keys.value[j]) == ""
  {
    var keys := api.storageKeys(subscription, resourceGroup, accountName);
    if keys.Some? && |keys.value| > 0 then
      var i := FirstNonEmpty(keys.value);
      if i == |keys.value| then Failure(NoNonEmptyKey(accountName))
      else Success(KeyValue(keys.value[i]))
    else Success("")
  }

  /** The source key after the blank-key check of Run. */
  function ResolveSourceKey(api: AzureApi, subscription: string, acct: StorageConfig): Result<StorageConfig, Error> {
    if !IsNullOrWhiteSpace(acct.SourceStorageKey) then Success(acct)
    else
      match acct.SourceAccountName()
      case None => Failure(MalformedAccountUrl(acct.SourceUrl.host))
      case Some(name) =>
        match GetStorageKey(api, subscription, acct.SourceResourceGroup, name)
        case Failure(e) => Failure(e)
        case Success(key) => Success(acct.(SourceStorageKey := key))
  }

  /** The target key after the blank-key check of Run. */
  function ResolveTargetKey(api: AzureApi, subscription: string, acct: StorageConfig): Result<StorageConfig, Error> {
    if !IsNullOrWhiteSpace(acct.TargetStorageKey) then Success(acct)
    else
      match acct.TargetAccountName()
      case None => Failure(MalformedAccountUrl(acct.TargetUrl.host))
      case Some(name) =>
        match GetStorageKey(api, subscription, acct.TargetResourceGroup, name)
        case Failure(e) => Failure(e)
        case Success(key) => Success(acct.(TargetStorageKey := key))
  }

  /** b is a after key resolution: every field is kept, except that a blank key
      may have been filled in. */
  ghost predicate KeysOnlyFilled(a: StorageConfig, b: StorageConfig) {
    && b.SourceResourceGroup == a.SourceResourceGroup && b.SourceUrl == a.SourceUrl
    && b.TargetResourceGroup == a.TargetResourceGroup && b.TargetUrl == a.TargetUrl
    && b.Filter == a.Filter
    && (!IsNullOrWhiteSpace(a.SourceStorageKey) ==> b.SourceStorageKey == a.SourceStorageKey)
    && (!IsNullOrWhiteSpace(a.TargetStorageKey) ==> b.TargetStorageKey == a.TargetStorageKey)
  }

  /** Resolution never overwrites a supplied key and touches nothing else. */
  lemma ResolveKeepsSuppliedKeys(api: AzureApi, cfg: MigrationConfig, acct: StorageConfig)
    ensures ResolveSourceKey(api, cfg.SourceSubscription, acct).Success? ==>
      KeysOnlyFilled(acct, ResolveSourceKey(api, cfg.SourceSubscription, acct).value) &&
      ResolveSourceKey(api, cfg.SourceSubscription, acct).value.TargetStorageKey == acct.TargetStorageKey
    ensures ResolveTargetKey(api, cfg.TargetSubscription, acct).Success? ==>
      KeysOnlyFilled(acct, ResolveTargetKey(api, cfg.TargetSubscription, acct).value) &&
      ResolveTargetKey(api, cfg.TargetSubscription, acct).value.SourceStorageKey == acct.SourceStorageKey
  {
  }

  // ---------------------------------------------------------------------------
  // Copy directives

  /** Both account names, source first, as every copy path evaluates them. */
  function AccountNames(acct: StorageConfig): Result<(string, string), Error> {
    match acct.SourceAccountName()
    case None => Failure(MalformedAccountUrl(acct.SourceUrl.host))
    case Some(src) =>
      match acct.TargetAccountName()
      case None => Failure(MalformedAccountUrl(acct.TargetUrl.host))
      case Some(tgt) => Success((src, tgt))
  }

  function SourceCredentials(acct: StorageConfig, name: string): Credentials {
    Credentials(name, acct.SourceStorageKey, acct.SourceUrl.url)
  }

  function TargetCredentials(acct: StorageConfig, name: string): Credentials {
    Credentials(name, acct.TargetStorageKey, acct.TargetUrl.url)
  }

  /** The task CopyContainers adds for one container: the trimmed name on both sides. */
  function ContainerCopy(api: AzureApi, acct: StorageConfig, src: string, tgt: string, container: string): CopyDirective {
    CopyDirective(
      GenerateBlobStorageSASUrl(api, SourceCredentials(acct, src), Trim(container)),
      GenerateBlobStorageSASUrl(api, TargetCredentials(acct, tgt), Trim(container)),
      None)
  }

  function ContainerCopies(api: AzureApi, acct: StorageConfig, src: string, tgt: string, containers: seq<string>)
    : seq<CopyDirective>
  {
    if containers == [] then []
    else [ContainerCopy(api, acct, src, tgt, containers[0])] + ContainerCopies(api, acct, src, tgt, containers[1..])
  }

  /** One whole-container task per name, in order. */
  lemma {:induction false} ContainerCopiesAt(api: AzureApi, acct: StorageConfig, src: string, tgt: string, containers: seq<string>)
    ensures |ContainerCopies(api, acct, src, tgt, containers)| == |containers|
    ensures forall k :: 0 <= k < |containers| ==>
      ContainerCopies(api, acct, src, tgt, containers)[k] == ContainerCopy(api, acct, src, tgt, containers[k])
  {
    if containers != [] {
      ContainerCopiesAt(api, acct, src, tgt, containers[1..]);
    }
  }

  /** CopyBlobs's classification of a non-empty include directive: a leading
      '*' makes a pattern, otherwise "dt" anywhere makes an after-date filter
      with every "dt" removed in one pass, otherwise the value is a path. */
  function ClassifyInclude(value: string): (inc: Include)
    requires value != ""
    ensures inc.kind == Pattern <==> value[0] == '*'
    ensures inc.kind == After <==> value[0] != '*' && Contains(value, "dt")
    ensures inc.kind == Path <==> value[0] != '*' && !Contains(value, "dt")
    ensures inc.kind == Pattern ==> "*" + inc.value == value
    ensures inc.kind == After ==> inc.value == Replace(value, "dt", "") && |inc.value| < |value|
    ensures inc.kind == Path ==> inc.value == value
  {
    if value[0] == '*' then
      Include(value[1..], Pattern)
    else if Contains(value, "dt") then
      RemoveShrinks(value, "dt");
      Include(Replace(value, "dt", ""), After)
    else
      Include(value, Path)
  }

  /** The task CopyBlobs adds for an entry with an include directive. */
  function IncludeCopy(api: AzureApi, acct: StorageConfig, src: string, tgt: string, sel: ContainerSelector): CopyDirective
    requires sel.Value != ""
  {
    CopyDirective(
      GenerateBlobStorageSASUrl(api, SourceCredentials(acct, src), Trim(sel.Key)),
      GenerateBlobStorageSASUrl(api, TargetCredentials(acct, tgt), Trim(sel.Key)),
      Some(ClassifyInclude(sel.Value)))
  }

  /** The filter's value is blank. */
  predicate BlankEntry(filter: string) {
    IsNullOrWhiteSpace(ExtractContainerName(filter).Value)
  }

  /** The task CopyBlobs adds for one entry: a whole-container copy of the raw
      filter string when its directive is blank, an include copy otherwise. */
  function EntryCopy(api: AzureApi, acct: StorageConfig, src: string, tgt: string, filter: string): CopyDirective {
    if BlankEntry(filter) then ContainerCopy(api, acct, src, tgt, filter)
    else IncludeCopy(api, acct, src, tgt, ExtractContainerName(filter))
  }

  /** EntryCopy for one account pair, as a function of the entry. */
  function EntryCopies(api: AzureApi, acct: StorageConfig, src: string, tgt: string): string -> CopyDirective {
    filter => EntryCopy(api, acct, src, tgt, filter)
  }

  /** An entry's task is a whole copy exactly when its directive is blank. */
  lemma EntryCopyWholeWhenBlank(api: AzureApi, acct: StorageConfig, src: string, tgt: string)
    ensures forall filter :: BlankEntry(filter) <==> EntryCopies(api, acct, src, tgt)(filter).includes.None?
  {
  }

  /** The control flow of CopyBlobs: the task of each entry, in order, up to
      and including the first entry that stops the batch; only that entry
      raises count. */
  function BlobCopies(filters: seq<string>, stop: string -> bool, copy: string -> CopyDirective): (seq<CopyDirective>, nat)
  {
    if filters == [] then ([], 0)
    else if stop(filters[0]) then ([copy(filters[0])], 1)
    else
      var rest := BlobCopies(filters[1..], stop, copy);
      ([copy(filters[0])] + rest.0, rest.1)
  }

  /** A batch without a stopping entry gives each entry's task, in order, and
      leaves count alone. */
  lemma {:induction false} BlobCopiesWithoutBlank(filters: seq<string>, stop: string -> bool, copy: string -> CopyDirective)
    requires forall j :: 0 <= j < |filters| ==> !stop(filters[j])
    ensures |BlobCopies(filters, stop, copy).0| == |filters|
    ensures BlobCopies(filters, stop, copy).1 == 0
    ensures forall j :: 0 <= j < |filters| ==> BlobCopies(filters, stop, copy).0[j] == copy(filters[j])
  {
    if filters != [] {
      var rest := filters[1..];
      BlobCopiesWithoutBlank(rest, stop, copy);
      var all := BlobCopies(filters, stop, copy).0;
      var r := BlobCopies(rest, stop, copy).0;
      assert all == [copy(filters[0])] + r;
      forall j | 1 <= j < |filters|
        ensures all[j] == copy(filters[j])
      {
        assert all[j] == r[j - 1] && rest[j - 1] == filters[j];
      }
    }
  }

  /** The first stopping entry adds its own task after those before it, raises
      count by one, and nothing after it is read. */
  lemma {:induction false} BlobCopiesStopAtBlank(filters: seq<string>, stop: string -> bool, copy: string -> CopyDirective, k: nat)
    requires k < |filters| && stop(filters[k])
    requires forall j :: 0 <= j < k ==> !stop(filters[j])
    ensures BlobCopies(filters, stop, copy).0 == BlobCopies(filters[..k], stop, copy).0 + [copy(filters[k])]
    ensures BlobCopies(filters, stop, copy).1 == 1
  {
    if k == 0 {
      assert filters[..0] == [];
    } else {
      var rest := filters[1..];
      assert rest[..k - 1] == filters[..k][1..];
      forall j | 0 <= j < k - 1
        ensures !stop(rest[j])
      {
        assert rest[j] == filters[j + 1];
      }
      BlobCopiesStopAtBlank(rest, stop, copy, k - 1);
      assert filters[..k][0] == filters[0];
    }
  }

  /** Count rises exactly for the whole copies of a batch, when the stopping
      entries are exactly those whose task is a whole copy. */
  lemma {:induction false} BlobCopiesCount(filters: seq<string>, stop: string -> bool, copy: string -> CopyDirective)
    requires forall f :: stop(f) <==> copy(f).includes.None?
    ensures BlobCopies(filters, stop, copy).1 == WholeCopies(BlobCopies(filters, stop, copy).0)
  {
    if filters != [] {
      var d := copy(filters[0]);
      assert [d][..0] == [];
      if !stop(filters[0]) {
        BlobCopiesCount(filters[1..], stop, copy);
        WholeCopiesAppend([d], BlobCopies(filters[1..], stop, copy).0);
      }
    }
  }

  /** A one-name CopyContainers call adds one whole-container task. */
  lemma ContainerCopiesSingle(api: AzureApi, acct: StorageConfig, src: string, tgt: string, container: string)
    ensures ContainerCopies(api, acct, src, tgt, [container]) == [ContainerCopy(api, acct, src, tgt, container)]
  {
    assert [container][1..] == [];
  }

  /** One iteration of CopyContainers, as the loop sees it. */
  lemma ContainerCopiesStep(api: AzureApi, acct: StorageConfig, src: string, tgt: string, containers: seq<string>,
                            i: nat, tasks: seq<CopyDirective>)
    requires i < |containers|
    ensures tasks + ContainerCopies(api, acct, src, tgt, containers[i..])
         == (tasks + [ContainerCopy(api, acct, src, tgt, containers[i])]) + ContainerCopies(api, acct, src, tgt, containers[i + 1..])
  {
    assert containers[i..][1..] == containers[i + 1..];
  }

  /** One iteration of CopyBlobs past an entry that does not stop the batch. */
  lemma BlobCopiesStep(filters: seq<string>, stop: string -> bool, copy: string -> CopyDirective,
                       i: nat, tasks: seq<CopyDirective>)
    requires i < |filters| && !stop(filters[i])
    ensures var later := BlobCopies(filters[i + 1..], stop, copy);
      tasks + BlobCopies(filters[i..], stop, copy).0 == (tasks + [copy(filters[i])]) + later.0
      && BlobCopies(filters[i..], stop, copy).1 == later.1
  {
    assert filters[i..][0] == filters[i];
    assert filters[i..][1..] == filters[i + 1..];
  }

  /** CopyBlobs reaching a stopping entry: that entry's task ends the batch. */
  lemma BlobCopiesStopStep(filters: seq<string>, stop: string -> bool, copy: string -> CopyDirective, i: nat)
    requires i < |filters| && stop(filters[i])
    ensures BlobCopies(filters[i..], stop, copy) == ([copy(filters[i])], 1)
  {
    assert filters[i..][0] == filters[i];
  }

  // ---------------------------------------------------------------------------
  // What one account pair adds

  /** The tasks an operation added, how far it raised count, and whether it threw. */
  datatype Effect = Effect(added: seq<CopyDirective>, counted: int, outcome: Outcome<Error>)

  /** CopyContainers as a value: the account names are read in the first
      iteration, so an empty list never fails. */
  function ContainersEffect(api: AzureApi, acct: StorageConfig, containers: seq<string>): Effect {
    if containers == [] then Effect([], 0, Pass)
    else
      match AccountNames(acct)
      case Failure(e) => Effect([], 0, Fail(e))
      case Success(names) =>
        Effect(ContainerCopies(api, acct, names.0, names.1, containers), |containers|, Pass)
  }

  /** CopyBlobs as a value. */
  function BlobsEffect(api: AzureApi, acct: StorageConfig, filters: seq<string>): Effect {
    if filters == [] then Effect([], 0, Pass)
    else
      match AccountNames(acct)
      case Failure(e) => Effect([], 0, Fail(e))
      case Success(names) =>
        var r := BlobCopies(filters, BlankEntry, EntryCopies(api, acct, names.0, names.1));
        Effect(r.0, r.1, Pass)
  }

  /** Date filter: the names of the containers modified at or after the cutoff,
      in listing order. */
  function ModifiedSince(containers: seq<BlobContainer>, cutoff: int): seq<string> {
    if containers == [] then []
    else
      (if containers[0].LastModified >= cutoff then [containers[0].Name] else [])
        + ModifiedSince(containers[1..], cutoff)
  }

  /** A container is kept exactly when it was modified at or after the cutoff
      (the cutoff itself included). */
  lemma {:induction false} ModifiedSinceMembers(containers: seq<BlobContainer>, cutoff: int, n: string)
    ensures n in ModifiedSince(containers, cutoff) <==>
      exists c :: c in containers && c.Name == n && c.LastModified >= cutoff
  {
    if containers != [] {
      ModifiedSinceMembers(containers[1..], cutoff, n);
      assert forall c :: c in containers <==> c == containers[0] || c in containers[1..];
    }
  }

  /** Selection keeps the listing order: it distributes over concatenation. */
  lemma {:induction false} ModifiedSinceAppend(a: seq<BlobContainer>, b: seq<BlobContainer>, cutoff: int)
    ensures ModifiedSince(a + b, cutoff) == ModifiedSince(a, cutoff) + ModifiedSince(b, cutoff)
  {
    if a == [] {
      assert a + b == b;
    } else {
      assert (a + b)[0] == a[0];
      assert (a + b)[1..] == a[1..] + b;
      ModifiedSinceAppend(a[1..], b, cutoff);
    }
  }

  /** The switch of Run on one account pair, after its keys are resolved. */
  function Dispatch(api: AzureApi, parseDate: string -> Option<int>, acct: StorageConfig): Effect {
    match acct.Filter
    case None =>
      (match AccountNames(acct)
       case Failure(e) => Effect([], 0, Fail(e))
       case Success(names) =>
         var source := GenerateBlobStorageSASUrl(api, SourceCredentials(acct, names.0), "");
         var target := GenerateBlobStorageSASUrl(api, TargetCredentials(acct, names.1), "");
         Effect([CopyDirective(source, target, None)], 1, Pass))
    case Some(f) =>
      if f.Type == Date then
        match acct.SourceAccountName()
        case None => Effect([], 0, Fail(MalformedAccountUrl(acct.SourceUrl.host)))
        case Some(src) =>
          match ContainerList(api, SourceCredentials(acct, src))
          case None => Effect([], 0, Fail(ContainerListingFailed(src)))
          case Some(containers) =>
            match parseDate(Trim(f.Value))
            case None => Effect([], 0, Fail(UnparsableDate(f.Value)))
            case Some(cutoff) => ContainersEffect(api, acct, ModifiedSince(containers, cutoff))
      else if f.Type == Name then
        ContainersEffect(api, acct, f.Filters)
      else if f.Type == IncludePatterns then
        BlobsEffect(api, acct, f.Filters)
      else
        Effect([], 0, Pass)
  }

  // ---------------------------------------------------------------------------
  // count against the task list

  /** The number of tasks that copy a whole tree (no include filter). */
  function WholeCopies(ts: seq<CopyDirective>): nat {
    if ts == [] then 0
    else WholeCopies(ts[..|ts| - 1]) + (if ts[|ts| - 1].includes.None? then 1 else 0)
  }

  lemma {:induction false} WholeCopiesAppend(a: seq<CopyDirective>, b: seq<CopyDirective>)
    ensures WholeCopies(a + b) == WholeCopies(a) + WholeCopies(b)
    decreases |b|
  {
    if b == [] {
      assert a + b == a;
    } else {
      assert (a + b)[..|a + b| - 1] == a + b[..|b| - 1];
      assert (a + b)[|a + b| - 1] == b[|b| - 1];
      WholeCopiesAppend(a, b[..|b| - 1]);
    }
  }

  /** At most every task is a whole copy, and all are exactly when none has an include filter. */
  lemma {:induction false} WholeCopiesBound(ts: seq<CopyDirective>)
    ensures WholeCopies(ts) <= |ts|
    ensures WholeCopies(ts) == |ts| <==> forall k :: 0 <= k < |ts| ==> ts[k].includes.None?
  {
    if ts != [] {
      var init := ts[..|ts| - 1];
      WholeCopiesBound(init);
      assert forall k :: 0 <= k < |init| ==> init[k] == ts[k];
    }
  }

  /** Every path raises count once per whole-container task and never for an
      include task: count counts the whole copies, not the tasks. */
  lemma DispatchCountsWholeCopies(api: AzureApi, parseDate: string -> Option<int>, acct: StorageConfig)
    ensures Dispatch(api, parseDate, acct).counted == WholeCopies(Dispatch(api, parseDate, acct).added)
  {
    match acct.Filter
    case None =>
      if AccountNames(acct).Success? {
        var d := Dispatch(api, parseDate, acct).added;
        assert |d| == 1 && d[0].includes.None?;
        assert d[..0] == [];
      }
    case Some(f) =>
      if f.Type == Date {
        var src := acct.SourceAccountName();
        if src.Some? {
          var cs := ContainerList(api, SourceCredentials(acct, src.value));
          if cs.Some? && parseDate(Trim(f.Value)).Some? {
            ContainersEffectCounts(api, acct, ModifiedSince(cs.value, parseDate(Trim(f.Value)).value));
          }
        }
      } else if f.Type == Name {
        ContainersEffectCounts(api, acct, f.Filters);
      } else if f.Type == IncludePatterns {
        BlobsEffectCounts(api, acct, f.Filters);
      }
  }

  lemma ContainersEffectCounts(api: AzureApi, acct: StorageConfig, containers: seq<string>)
    ensures ContainersEffect(api, acct, containers).counted == WholeCopies(ContainersEffect(api, acct, containers).added)
  {
    if containers != [] && AccountNames(acct).Success? {
      var names := AccountNames(acct).value;
      ContainerCopiesAreWhole(api, acct, names.0, names.1, containers);
    }
  }

  lemma BlobsEffectCounts(api: AzureApi, acct: StorageConfig, filters: seq<string>)
    ensures BlobsEffect(api, acct, filters).counted == WholeCopies(BlobsEffect(api, acct, filters).added)
  {
    if filters != [] && AccountNames(acct).Success? {
      var names := AccountNames(acct).value;
      EntryCopyWholeWhenBlank(api, acct, names.0, names.1);
      BlobCopiesCount(filters, BlankEntry, EntryCopies(api, acct, names.0, names.1));
    }
  }

  lemma {:induction false} ContainerCopiesAreWhole(api: AzureApi, acct: StorageConfig, src: string, tgt: string, containers: seq<string>)
    ensures WholeCopies(ContainerCopies(api, acct, src, tgt, containers)) == |containers|
  {
    if containers != [] {
      ContainerCopiesAreWhole(api, acct, src, tgt, containers[1..]);
      var d := ContainerCopy(api, acct, src, tgt, containers[0]);
      WholeCopiesAppend([d], ContainerCopies(api, acct, src, tgt, containers[1..]));
      assert [d][..0] == [];
    }
  }

  // ---------------------------------------------------------------------------
  // Run as a value

  /** The state Run leaves: the configuration with any keys it filled in, the
      task list, count, and whether it threw. */
  datatype Final = Final(config: MigrationConfig, tasks: seq<CopyDirective>, count: int, outcome: Outcome<Error>)

  function WithAccount(cfg: MigrationConfig, i: nat, acct: StorageConfig): (r: MigrationConfig)
    requires i < |cfg.StorageAccounts|
    ensures |r.StorageAccounts| == |cfg.StorageAccounts|
  {
    cfg.(StorageAccounts := cfg.StorageAccounts[i := acct])
  }

  /** One iteration of Run's loop: resolve the source key, then the target
      key, each written back at once, then dispatch on the filter. */
  function ProcessAccount(api: AzureApi, parseDate: string -> Option<int>, cfg: MigrationConfig, i: nat,
                          tasks: seq<CopyDirective>, count: int): (r: Final)
    requires i < |cfg.StorageAccounts|
    ensures |r.config.StorageAccounts| == |cfg.StorageAccounts|
    ensures r.config.SourceSubscription == cfg.SourceSubscription
    ensures r.config.TargetSubscription == cfg.TargetSubscription
  {
    match ResolveSourceKey(api, cfg.SourceSubscription, cfg.StorageAccounts[i])
    case Failure(e) => Final(cfg, tasks, count, Fail(e))
    case Success(a1) =>
      var cfg1 := WithAccount(cfg, i, a1);
      match ResolveTargetKey(api, cfg.TargetSubscription, a1)
      case Failure(e) => Final(cfg1, tasks, count, Fail(e))
      case Success(a2) =>
        var e := Dispatch(api, parseDate, a2);
        Final(WithAccount(cfg1, i, a2), tasks + e.added, count + e.counted, e.outcome)
  }

  /** Run's loop from account i on; the first exception ends it. */
  function RunFrom(api: AzureApi, parseDate: string -> Option<int>, cfg: MigrationConfig, i: nat,
                   tasks: seq<CopyDirective>, count: int): Final
    decreases |cfg.StorageAccounts| - i
  {
    if i >= |cfg.StorageAccounts| then Final(cfg, tasks, count, Pass)
    else
      var r := ProcessAccount(api, parseDate, cfg, i, tasks, count);
      if r.outcome.Fail? then r else RunFrom(api, parseDate, r.config, i + 1, r.tasks, r.count)
  }

  /** The configuration after Run keeps every account pair, in place, and
      changes nothing but keys that were blank. */
  ghost predicate ConfigKeysOnlyFilled(before: MigrationConfig, after: MigrationConfig) {
    && after.SourceSubscription == before.SourceSubscription
    && after.TargetSubscription == before.TargetSubscription
    && |after.StorageAccounts| == |before.StorageAccounts|
    && forall j :: 0 <= j < |before.StorageAccounts| ==>
         KeysOnlyFilled(before.StorageAccounts[j], after.StorageAccounts[j])
  }

  /** Run never overwrites a supplied key, and it only appends tasks. */
  lemma {:induction false} RunKeepsSuppliedKeys(api: AzureApi, parseDate: string -> Option<int>, cfg: MigrationConfig, i: nat,
                                                tasks: seq<CopyDirective>, count: int)
    ensures var r := RunFrom(api, parseDate, cfg, i, tasks, count);
      ConfigKeysOnlyFilled(cfg, r.config) && |tasks| <= |r.tasks| && r.tasks[..|tasks|] == tasks
    decreases |cfg.StorageAccounts| - i
  {
    if i < |cfg.StorageAccounts| {
      var r := ProcessAccount(api, parseDate, cfg, i, tasks, count);
      ProcessAccountKeepsSuppliedKeys(api, parseDate, cfg, i, tasks, count);
      if r.outcome.Pass? {
        RunKeepsSuppliedKeys(api, parseDate, r.config, i + 1, r.tasks, r.count);
        var r2 := RunFrom(api, parseDate, r.config, i + 1, r.tasks, r.count);
        assert RunFrom(api, parseDate, cfg, i, tasks, count) == r2;
        ConfigKeysOnlyFilledTransitive(cfg, r.config, r2.config);
        assert r2.tasks[..|r.tasks|][..|tasks|] == r2.tasks[..|tasks|];
      }
    }
  }

  /** Filling keys twice only fills keys: a key supplied at the start survives both. */
  lemma ConfigKeysOnlyFilledTransitive(a: MigrationConfig, b: MigrationConfig, c: MigrationConfig)
    requires ConfigKeysOnlyFilled(a, b) && ConfigKeysOnlyFilled(b, c)
    ensures ConfigKeysOnlyFilled(a, c)
  {
  }

  lemma ProcessAccountKeepsSuppliedKeys(api: AzureApi, parseDate: string -> Option<int>, cfg: MigrationConfig, i: nat,
                                        tasks: seq<CopyDirective>, count: int)
    requires i < |cfg.StorageAccounts|
    ensures var r := ProcessAccount(api, parseDate, cfg, i, tasks, count);
      ConfigKeysOnlyFilled(cfg, r.config) && |tasks| <= |r.tasks| && r.tasks[..|tasks|] == tasks
  {
    var acct := cfg.StorageAccounts[i];
    ResolveKeepsSuppliedKeys(api, cfg, acct);
    var s := ResolveSourceKey(api, cfg.SourceSubscription, acct);
    if s.Success? {
      ResolveKeepsSuppliedKeys(api, cfg, s.value);
      var t := ResolveTargetKey(api, cfg.TargetSubscription, s.value);
      if t.Success? {
        var e := Dispatch(api, parseDate, t.value);
        assert (tasks + e.added)[..|tasks|] == tasks;
      }
    }
  }

  /** Run keeps count equal to the number of whole-copy tasks added, however
      many include tasks it adds beside them. */
  lemma {:induction false} RunCountsWholeCopies(api: AzureApi, parseDate: string -> Option<int>, cfg: MigrationConfig, i: nat,
                                                tasks: seq<CopyDirective>, count: int)
    ensures var r := RunFrom(api, parseDate, cfg, i, tasks, count);
      r.count - WholeCopies(r.tasks) == count - WholeCopies(tasks)
    decreases |cfg.StorageAccounts| - i
  {
    if i < |cfg.StorageAccounts| {
      var r := ProcessAccount(api, parseDate, cfg, i, tasks, count);
      var s := ResolveSourceKey(api, cfg.SourceSubscription, cfg.StorageAccounts[i]);
      if s.Success? {
        var t := ResolveTargetKey(api, cfg.TargetSubscription, s.value);
        if t.Success? {
          DispatchCountsWholeCopies(api, parseDate, t.value);
          WholeCopiesAppend(tasks, Dispatch(api, parseDate, t.value).added);
        }
      }
      if r.outcome.Pass? {
        RunCountsWholeCopies(api, parseDate, r.config, i + 1, r.tasks, r.count);
      }
    }
  }

  // ---------------------------------------------------------------------------
  // Scenarios

  /** An account pair whose keys are both supplied and whose hosts both name
      their accounts. */
  predicate Ready(acct: StorageConfig) {
    KeysSupplied(acct) && Addressable(acct)
  }

  /** Both access keys are given, so Run does not look them up. */
  predicate KeysSupplied(acct: StorageConfig) {
    !IsNullOrWhiteSpace(acct.SourceStorageKey) && !IsNullOrWhiteSpace(acct.TargetStorageKey)
  }

  /** Both hosts contain ".blob", so both account names can be read. */
  predicate Addressable(acct: StorageConfig) {
    acct.SourceAccountName().Some? && acct.TargetAccountName().Some?
  }

  /** A lone account pair whose keys are supplied: Run adds exactly what the
      dispatch on its filter adds, and leaves the configuration as it was. */
  lemma SingleReadyAccount(api: AzureApi, parseDate: string -> Option<int>, acct: StorageConfig,
                           sourceSubscription: string, targetSubscription: string)
    requires KeysSupplied(acct)
    ensures var cfg := MigrationConfig([acct], sourceSubscription, targetSubscription);
      var e := Dispatch(api, parseDate, acct);
      RunFrom(api, parseDate, cfg, 0, [], 0) == Final(cfg, e.added, e.counted, e.outcome)
  {
    var cfg := MigrationConfig([acct], sourceSubscription, targetSubscription);
    assert cfg.StorageAccounts[0 := acct] == cfg.StorageAccounts;
    assert [] + Dispatch(api, parseDate, acct).added == Dispatch(api, parseDate, acct).added;
  }

  /** A lone account pair without a filter: one task copying the whole source
      account into the whole target account through two account SAS URLs. */
  lemma NoFilterCopiesWholeAccount(api: AzureApi, parseDate: string -> Option<int>, acct: StorageConfig,
                                   sourceSubscription: string, targetSubscription: string)
    requires Ready(acct) && acct.Filter.None?
    ensures var cfg := MigrationConfig([acct], sourceSubscription, targetSubscription);
      var r := RunFrom(api, parseDate, cfg, 0, [], 0);
      && r.outcome == Pass && r.count == 1 && r.config == cfg
      && r.tasks == [CopyDirective(
           api.accountSas(SourceCredentials(acct, acct.SourceAccountName().value)),
           api.accountSas(TargetCredentials(acct, acct.TargetAccountName().value)),
           None)]
  {
    SingleReadyAccount(api, parseDate, acct, sourceSubscription, targetSubscription);
    assert IsNullOrWhiteSpace("");
  }

  /** A Name filter ["a", "b"]: one whole-container task per name, in order,
      and count 2. */
  lemma NameFilterCopiesEachContainer(api: AzureApi, parseDate: string -> Option<int>, acct: StorageConfig,
                                      sourceSubscription: string, targetSubscription: string, value: string)
    requires Ready(acct) && acct.Filter == Some(ContainerFiltration(Name, value, ["a", "b"]))
    ensures var cfg := MigrationConfig([acct], sourceSubscription, targetSubscription);
      var r := RunFrom(api, parseDate, cfg, 0, [], 0);
      var src := SourceCredentials(acct, acct.SourceAccountName().value);
      var tgt := TargetCredentials(acct, acct.TargetAccountName().value);
      && r.outcome == Pass && r.count == 2
      && r.tasks == [CopyDirective(api.containerSas(src, "a"), api.containerSas(tgt, "a"), None),
                     CopyDirective(api.containerSas(src, "b"), api.containerSas(tgt, "b"), None)]
  {
    SingleReadyAccount(api, parseDate, acct, sourceSubscription, targetSubscription);
    TrimWord("a");
    TrimWord("b");
    var names := AccountNames(acct).value;
    ContainerCopiesAt(api, acct, names.0, names.1, ["a", "b"]);
  }

  /** An IncludePatterns filter ["a:*foo", "b:", "c:x"]: a pattern task for
      container "a", then the blank directive of "b:" copies a container named
      by the raw string "b:" and ends the batch, so "c:x" is never read. Two
      tasks run, but count is 1. */
  lemma IncludePatternsStopAtBlankDirective(api: AzureApi, parseDate: string -> Option<int>, acct: StorageConfig,
                                            sourceSubscription: string, targetSubscription: string, value: string)
    requires Ready(acct) && acct.Filter == Some(ContainerFiltration(IncludePatterns, value, ["a:*foo", "b:", "c:x"]))
    ensures var cfg := MigrationConfig([acct], sourceSubscription, targetSubscription);
      var r := RunFrom(api, parseDate, cfg, 0, [], 0);
      var src := SourceCredentials(acct, acct.SourceAccountName().value);
      var tgt := TargetCredentials(acct, acct.TargetAccountName().value);
      && r.outcome == Pass && r.count == 1
      && r.tasks == [CopyDirective(api.containerSas(src, "a"), api.containerSas(tgt, "a"), Some(Include("foo", Pattern))),
                     CopyDirective(api.containerSas(src, "b:"), api.containerSas(tgt, "b:"), None)]
  {
    SingleReadyAccount(api, parseDate, acct, sourceSubscription, targetSubscription);
    var names := AccountNames(acct).value;
    assert acct.Filter.value.Filters == ["a:*foo", "b:"] + ["c:x"];
    ExampleHead(api, acct, names.0, names.1, "a:*foo");
    ExampleBlank(api, acct, names.0, names.1, "b:");
    BlobCopiesEntryThenStop("a:*foo", "b:", ["c:x"], BlankEntry, EntryCopies(api, acct, names.0, names.1));
  }

  /** An entry that does not stop the batch followed by one that does: the two
      tasks, and whatever follows is not read. */
  lemma BlobCopiesEntryThenStop(f0: string, f1: string, rest: seq<string>, stop: string -> bool, copy: string -> CopyDirective)
    requires !stop(f0) && stop(f1)
    ensures BlobCopies([f0, f1] + rest, stop, copy) == ([copy(f0), copy(f1)], 1)
  {
    var filters := [f0, f1] + rest;
    assert filters[0] == f0 && filters[1..] == [f1] + rest;
    assert ([f1] + rest)[0] == f1;
    assert [copy(f0)] + [copy(f1)] == [copy(f0), copy(f1)];
  }

  /** "a:*foo" asks for the blobs of container "a" matching the pattern "foo". */
  lemma ExampleHead(api: AzureApi, acct: StorageConfig, src: string, tgt: string, filter: string)
    requires filter == "a:*foo"
    ensures !BlankEntry(filter)
    ensures EntryCopy(api, acct, src, tgt, filter)
         == CopyDirective(api.containerSas(SourceCredentials(acct, src), "a"),
                          api.containerSas(TargetCredentials(acct, tgt), "a"), Some(Include("foo", Pattern)))
  {
    SplitAtFirstColon(filter, 1);
    assert ExtractContainerName(filter) == ContainerSelector("a", "*foo") by {
      assert filter[..1] == "a" && filter[2..] == "*foo";
    }
    assert !IsWhiteSpace("*foo"[0]);
    TrimWord("a");
    assert !IsNullOrWhiteSpace("a") by { assert !IsWhiteSpace("a"[0]); }
    assert ClassifyInclude("*foo") == Include("foo", Pattern) by { assert "*foo"[1..] == "foo"; }
  }

  /** "b:" has a blank directive: it becomes a copy of the container named "b:". */
  lemma ExampleBlank(api: AzureApi, acct: StorageConfig, src: string, tgt: string, filter: string)
    requires filter == "b:"
    ensures BlankEntry(filter)
    ensures EntryCopy(api, acct, src, tgt, filter)
         == CopyDirective(api.containerSas(SourceCredentials(acct, src), "b:"),
                          api.containerSas(TargetCredentials(acct, tgt), "b:"), None)
  {
    SplitAtFirstColon(filter, 1);
    assert ExtractContainerName(filter) == ContainerSelector("b", "") by {
      assert filter[..1] == "b" && filter[2..] == "";
    }
    TrimWord("b:");
    assert !IsNullOrWhiteSpace("b:") by { assert !IsWhiteSpace("b:"[0]); }
  }

  /** A word without white space trims to itself. */
  lemma TrimWord(s: string)
    requires s != [] && forall i :: 0 <= i < |s| ==> !IsWhiteSpace(s[i])
    ensures Trim(s) == s
  {
    assert TextStart(s, 0) == 0;
    assert TextEnd(s, |s|) == |s|;
    assert s[0..|s|] == s;
  }

  /** A leading '*' makes a pattern of the rest. */
  lemma ClassifyPattern()
    ensures ClassifyInclude("*.log") == Include(".log", Pattern)
  {
  }

  /** Without '*' or "dt" the value is a path. */
  lemma ClassifyPath()
    ensures ClassifyInclude("logs") == Include("logs", Path)
  {
    AbsentFirstChar("logs", "dt");
  }

  /** "dt" anywhere makes an after-date filter, and the single pass of
      Replace leaves a "dt" behind in "ddtt". */
  lemma ClassifyAfterSinglePass()
    ensures ClassifyInclude("ddtt") == Include("dt", After)
  {
    assert OccursAt("ddtt", "dt", 1) by {
      assert "ddtt"[1..3] == "dt";
    }
    RemoveIsSinglePass();
  }

  /** A Date filter keeps exactly the containers modified at or after the
      parsed cutoff, in listing order, and copies each of them whole. */
  lemma DateFilterCopiesRecentContainers(api: AzureApi, parseDate: string -> Option<int>, acct: StorageConfig,
                                         containers: seq<BlobContainer>, cutoff: int, n: string)
    requires Addressable(acct) && acct.Filter.Some? && acct.Filter.value.Type == Date
    requires ContainerList(api, SourceCredentials(acct, acct.SourceAccountName().value)) == Some(containers)
    requires parseDate(Trim(acct.Filter.value.Value)) == Some(cutoff)
    ensures var e := Dispatch(api, parseDate, acct);
      var selected := ModifiedSince(containers, cutoff);
      var names := AccountNames(acct).value;
      && e.outcome == Pass && e.counted == |selected| && |e.added| == |selected|
      && (forall k :: 0 <= k < |selected| ==> e.added[k] == ContainerCopy(api, acct, names.0, names.1, selected[k]))
      && (n in selected <==> exists c :: c in containers && c.Name == n && c.LastModified >= cutoff)
  {
    var names := AccountNames(acct).value;
    ContainerCopiesAt(api, acct, names.0, names.1, ModifiedSince(containers, cutoff));
    ModifiedSinceMembers(containers, cutoff, n);
  }

  /** A blank container name in a Name filter copies the whole account: the
      trimmed name is empty, so both SAS URLs are account SAS URLs. */
  lemma BlankNameCopiesWholeAccount(api: AzureApi, acct: StorageConfig, src: string, tgt: string, container: string)
    requires IsNullOrWhiteSpace(container)
    ensures ContainerCopy(api, acct, src, tgt, container)
         == CopyDirective(api.accountSas(SourceCredentials(acct, src)), api.accountSas(TargetCredentials(acct, tgt)), None)
  {
    assert Trim(container) == "";
    assert IsNullOrWhiteSpace("");
  }

  // ---------------------------------------------------------------------------
  // The orchestrator object

  /** Migration: holds the configuration, the task list _tasks and the counter
      count, and the collaborators (the SDK and CLI, and DateTimeOffset.Parse). */
  class Migration {
    const api: AzureApi
    const parseDate: string -> Option<int>
    var config: MigrationConfig
    var tasks: seq<CopyDirective>
    var count: int

    /** count counts the whole-copy tasks only. */
    ghost predicate Valid()
      reads this
    {
      count == WholeCopies(tasks)
    }

    /** The constructor, with the configuration document already read. */
    constructor (api: AzureApi, parseDate: string -> Option<int>, config: MigrationConfig)
      ensures this.api == api && this.parseDate == parseDate && this.config == config
      ensures tasks == [] && count == 0
      ensures Valid()
    {
      this.api := api;
      this.parseDate := parseDate;
      this.config := config;
      tasks := [];
      count := 0;
    }

    /** Appends a task and keeps count in step with the whole copies. */
    method AddTask(d: CopyDirective)
      requires Valid()
      modifies this`tasks, this`count
      ensures Valid()
      ensures tasks == old(tasks) + [d]
      ensures count == old(count) + (if d.includes.None? then 1 else 0)
    {
      if d.includes.None? {
        count := count + 1;
      }
      assert (tasks + [d])[..|tasks|] == tasks;
      tasks := tasks + [d];
    }

    /** The body of CopyContainers' loop: read both account names, then add
        the whole-container copy of one container. */
    method CopyContainer(account: StorageConfig, container: string) returns (outcome: Outcome<Error>)
      requires Valid()
      modifies this`tasks, this`count
      ensures Valid()
      ensures match AccountNames(account)
        case Failure(e) => outcome == Fail(e) && tasks == old(tasks) && count == old(count)
        case Success(names) =>
          outcome == Pass && count == old(count) + 1
          && tasks == old(tasks) + [ContainerCopy(api, account, names.0, names.1, container)]
    {
      var src := account.SourceAccountName();
      if src.None? {
        return Fail(MalformedAccountUrl(account.SourceUrl.host));
      }
      var source := GenerateBlobStorageSASUrl(api, SourceCredentials(account, src.value), Trim(container));
      var tgt := account.TargetAccountName();
      if tgt.None? {
        return Fail(MalformedAccountUrl(account.TargetUrl.host));
      }
      var target := GenerateBlobStorageSASUrl(api, TargetCredentials(account, tgt.value), Trim(container));
      AddTask(CopyDirective(source, target, None));
      outcome := Pass;
    }

    /** The body of CopyBlobs' loop past the blank check: read both account
        names, then add the include copy of one container/pattern entry. */
    method CopyEntry(account: StorageConfig, container: ContainerSelector) returns (outcome: Outcome<Error>)
      requires Valid() && !IsNullOrWhiteSpace(container.Value)
      modifies this`tasks, this`count
      ensures Valid()
      ensures match AccountNames(account)
        case Failure(e) => outcome == Fail(e) && tasks == old(tasks) && count == old(count)
        case Success(names) =>
          outcome == Pass && count == old(count)
          && tasks == old(tasks) + [IncludeCopy(api, account, names.0, names.1, container)]
    {
      var src := account.SourceAccountName();
      if src.None? {
        return Fail(MalformedAccountUrl(account.SourceUrl.host));
      }
      var source := GenerateBlobStorageSASUrl(api, SourceCredentials(account, src.value), Trim(container.Key));
      var tgt := account.TargetAccountName();
      if tgt.None? {
        return Fail(MalformedAccountUrl(account.TargetUrl.host));
      }
      var target := GenerateBlobStorageSASUrl(api, TargetCredentials(account, tgt.value), Trim(container.Key));
      AddTask(CopyDirective(source, target, Some(ClassifyInclude(container.Value))));
      outcome := Pass;
    }

    /** CopyContainers: one whole-container task per name, count raised for each. */
    method CopyContainers(account: StorageConfig, containers: seq<string>) returns (outcome: Outcome<Error>)
      requires Valid()
      modifies this`tasks, this`count
      ensures Valid()
      ensures var e := ContainersEffect(api, account, containers);
        tasks == old(tasks) + e.added && count == old(count) + e.counted && outcome == e.outcome
    {
      ghost var names := AccountNames(account);
      var i := 0;
      while i < |containers|
        invariant 0 <= i <= |containers| && Valid()
        invariant i == 0 ==> tasks == old(tasks) && count == old(count)
        invariant i > 0 ==> names.Success?
        invariant i > 0 ==>
          old(tasks) + ContainerCopies(api, account, names.value.0, names.value.1, containers)
            == tasks + ContainerCopies(api, account, names.value.0, names.value.1, containers[i..])
          && count == old(count) + i
      {
        ghost var before := tasks;
        outcome := CopyContainer(account, containers[i]);
        if outcome.Fail? {
          return;
        }
        assert i == 0 ==> containers[i..] == containers;
        ContainerCopiesStep(api, account, names.value.0, names.value.1, containers, i, before);
        i := i + 1;
      }
      if i > 0 {
        assert containers[i..] == [];
      }
      outcome := Pass;
    }

    /** The body of CopyBlobs' loop: an entry with a blank directive becomes a
        whole-container copy of the raw entry (done is then set and the batch
        ends), any other entry adds its include copy. */
    method CopyFilter(account: StorageConfig, filter: string) returns (outcome: Outcome<Error>, done: bool)
      requires Valid()
      modifies this`tasks, this`count
      ensures Valid()
      ensures done == BlankEntry(filter)
      ensures match AccountNames(account)
        case Failure(e) => outcome == Fail(e) && tasks == old(tasks) && count == old(count)
        case Success(names) =>
          outcome == Pass && count == old(count) + (if done then 1 else 0)
          && tasks == old(tasks) + [EntryCopy(api, account, names.0, names.1, filter)]
    {
      var container := ExtractContainerName(filter);
      if IsNullOrWhiteSpace(container.Value) {
        ghost var names := AccountNames(account);
        if names.Success? {
          ContainerCopiesSingle(api, account, names.value.0, names.value.1, filter);
        }
        outcome := CopyContainers(account, [filter]);
        return outcome, true;
      }
      outcome := CopyEntry(account, container);
      done := false;
    }

    /** CopyBlobs: one include task per entry, count untouched; the first entry
        with a blank directive becomes a whole-container copy of the raw filter
        string and ends the batch. */
    method CopyBlobs(account: StorageConfig, filters: seq<string>) returns (outcome: Outcome<Error>)
      requires Valid()
      modifies this`tasks, this`count
      ensures Valid()
      ensures var e := BlobsEffect(api, account, filters);
        tasks == old(tasks) + e.added && count == old(count) + e.counted && outcome == e.outcome
    {
      ghost var names := AccountNames(account);
      ghost var copy := if names.Success? then EntryCopies(api, account, names.value.0, names.value.1)
                        else EntryCopies(api, account, "", "");
      ghost var all := BlobCopies(filters, BlankEntry, copy);
      var i := 0;
      while i < |filters|
        invariant 0 <= i <= |filters| && Valid()
        invariant i == 0 ==> tasks == old(tasks) && count == old(count)
        invariant i > 0 ==> names.Success?
        invariant i > 0 ==>
          var rest := BlobCopies(filters[i..], BlankEntry, copy);
          old(tasks) + all.0 == tasks + rest.0 && all.1 == rest.1 && count == old(count)
      {
        ghost var before := tasks;
        var done;
        outcome, done := CopyFilter(account, filters[i]);
        if outcome.Fail? {
          return;
        }
        assert tasks == before + [copy(filters[i])];
        assert i == 0 ==> filters[i..] == filters;
        if done {
          BlobCopiesStopStep(filters, BlankEntry, copy, i);
          return;
        }
        BlobCopiesStep(filters, BlankEntry, copy, i, before);
        i := i + 1;
      }
      if i > 0 {
        assert filters[i..] == [];
      }
      outcome := Pass;
    }

    /** Run: for each account pair in order, fill in blank keys, then add the
        pair's tasks; an exception ends the run. On success, await every task. */
    method Run() returns (outcome: Outcome<Error>, awaited: seq<string>)
      requires Valid()
      modifies this
      ensures Valid()
      ensures Final(config, tasks, count, outcome) == RunFrom(api, parseDate, old(config), 0, old(tasks), old(count))
      ensures outcome.Pass? ==> |awaited| == |tasks| && forall k :: 0 <= k < |tasks| ==> awaited[k] == Command(tasks[k])
      ensures outcome.Fail? ==> awaited == []
    {
      awaited := [];
      var i := 0;
      while i < |config.StorageAccounts|
        invariant 0 <= i <= |config.StorageAccounts| && Valid()
        invariant RunFrom(api, parseDate, old(config), 0, old(tasks), old(count)) == RunFrom(api, parseDate, config, i, tasks, count)
        decreases |config.StorageAccounts| - i
      {
        outcome := ProcessAccountAt(i);
        if outcome.Fail? {
          return;
        }
        i := i + 1;
      }
      outcome := Pass;
      var announced;
      announced, awaited := Copy();
    }

    /** The body of Run's loop for account pair i. */
    method ProcessAccountAt(i: nat) returns (outcome: Outcome<Error>)
      requires Valid() && i < |config.StorageAccounts|
      modifies this`config, this`tasks, this`count
      ensures Valid()
      ensures Final(config, tasks, count, outcome) == ProcessAccount(api, parseDate, old(config), i, old(tasks), old(count))
    {
      var account := config.StorageAccounts[i];
      if IsNullOrWhiteSpace(account.SourceStorageKey) {
        var name := account.SourceAccountName();
        if name.None? {
          return Fail(MalformedAccountUrl(account.SourceUrl.host));
        }
        var key := GetStorageKey(api, config.SourceSubscription, account.SourceResourceGroup, name.value);
        if key.Failure? {
          return Fail(key.error);
        }
        account := account.(SourceStorageKey := key.value);
        config := WithAccount(config, i, account);
      }
      if IsNullOrWhiteSpace(account.TargetStorageKey) {
        var name := account.TargetAccountName();
        if name.None? {
          return Fail(MalformedAccountUrl(account.TargetUrl.host));
        }
        var key := GetStorageKey(api, config.TargetSubscription, account.TargetResourceGroup, name.value);
        if key.Failure? {
          return Fail(key.error);
        }
        account := account.(TargetStorageKey := key.value);
        config := WithAccount(config, i, account);
      }
      outcome := DispatchAccount(account);
    }

    /** The switch of Run on the filter of one account pair. */
    method DispatchAccount(account: StorageConfig) returns (outcome: Outcome<Error>)
      requires Valid()
      modifies this`tasks, this`count
      ensures Valid()
      ensures var e := Dispatch(api, parseDate, account);
        tasks == old(tasks) + e.added && count == old(count) + e.counted && outcome == e.outcome
    {
      if account.Filter.Some? {
        var filter := account.Filter.value;
        if filter.Type == Date {
          var src := account.SourceAccountName();
          if src.None? {
            return Fail(MalformedAccountUrl(account.SourceUrl.host));
          }
          var containers := GetContainerList(api, SourceCredentials(account, src.value));
          if containers.None? {
            return Fail(ContainerListingFailed(src.value));
          }
          var cutoff := parseDate(Trim(filter.Value));
          if cutoff.None? {
            return Fail(UnparsableDate(filter.Value));
          }
          outcome := CopyContainers(account, ModifiedSince(containers.value, cutoff.value));
        } else if filter.Type == Name {
          outcome := CopyContainers(account, filter.Filters);
        } else if filter.Type == IncludePatterns {
          outcome := CopyBlobs(account, filter.Filters);
        } else {
          outcome := Pass;
        }
      } else {
        var src := account.SourceAccountName();
        if src.None? {
          return Fail(MalformedAccountUrl(account.SourceUrl.host));
        }
        var source := GenerateBlobStorageSASUrl(api, SourceCredentials(account, src.value), "");
        var tgt := account.TargetAccountName();
        if tgt.None? {
          return Fail(MalformedAccountUrl(account.TargetUrl.host));
        }
        var target := GenerateBlobStorageSASUrl(api, TargetCredentials(account, tgt.value), "");
        AddTask(CopyDirective(source, target, None));
        outcome := Pass;
      }
    }

    /** Copy(): announce count, then await every task. The announced number is
        the whole copies only, so it falls short of the tasks awaited whenever
        an include task was added. */
    method Copy() returns (announced: int, awaited: seq<string>)
      requires Valid()
      ensures announced == count
      ensures |awaited| == |tasks| && forall k :: 0 <= k < |tasks| ==> awaited[k] == Command(tasks[k])
      ensures announced <= |awaited|
      ensures announced == |awaited| <==> forall k :: 0 <= k < |tasks| ==> tasks[k].includes.None?
    {
      announced := count;
      awaited := seq(|tasks|, k requires 0 <= k < |tasks| reads this => Command(tasks[k]));
      WholeCopiesBound(tasks);
    }
  }
}
