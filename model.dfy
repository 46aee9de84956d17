/** The configuration and result records of the service library:
    MigrationConfig.cs, StorageKeys.cs and BlobData.cs. */
module Model {
  import opened Wrappers
  import opened Strings

  /** FiltrationType : byte. Any byte can arrive from the configuration
      document; only 0, 1 and 2 are named. */
  newtype FiltrationType = b: int | 0 <= b < 256
  const Name: FiltrationType := 0
  const Date: FiltrationType := 1
  const IncludePatterns: FiltrationType := 2

  /** AttributeType : byte, the kind of an include directive. */
  newtype AttributeType = b: int | 0 <= b < 256
  const Path: AttributeType := 0
  const Pattern: AttributeType := 1
  const After: AttributeType := 2

  /** A storage endpoint as configured: the URL text and the host System.Uri
      reports for it. */
  datatype Endpoint = Endpoint(url: string, host: string)

  /** ContainerFiltration: how an account pair selects what to copy. */
  datatype ContainerFiltration = ContainerFiltration(Type: FiltrationType, Value: string, Filters: seq<string>)

  /** One filter string split into container name (Key) and include directive (Value). */
  datatype ContainerSelector = ContainerSelector(Key: string, Value: string)

  /** StorageConfig: one source -> target account pair. The two keys are the
      only fields the orchestrator writes. */
  datatype StorageConfig = StorageConfig(
    SourceResourceGroup: string,
    SourceUrl: Endpoint,
    SourceStorageKey: string,
    TargetResourceGroup: string,
    TargetUrl: Endpoint,
    TargetStorageKey: string,
    Filter: Option<ContainerFiltration>)
  {
    /** The computed property SourceAccountName. */
    function SourceAccountName(): Option<string> {
      ExtractName(SourceUrl.host)
    }

    /** The computed property TargetAccountName. */
    function TargetAccountName(): Option<string> {
      ExtractName(TargetUrl.host)
    }
  }

  /** The account names are functions of the endpoints alone: the keys, the
      resource groups and the filter do not affect them. */
  lemma AccountNamesDependOnlyOnEndpoints(a: StorageConfig, b: StorageConfig)
    requires a.SourceUrl == b.SourceUrl && a.TargetUrl == b.TargetUrl
    ensures a.SourceAccountName() == b.SourceAccountName()
    ensures a.TargetAccountName() == b.TargetAccountName()
    ensures a.SourceAccountName().Some? ==> a.SourceAccountName().value == a.SourceUrl.host[..|a.SourceAccountName().value|]
  {
  }

  /** MigrationConfig: the whole job. */
  datatype MigrationConfig = MigrationConfig(
    StorageAccounts: seq<StorageConfig>,
    SourceSubscription: string,
    TargetSubscription: string)

  /** StorageKeys: one entry of the key list the CLI prints. */
  datatype StorageKeys = StorageKeys(
    CreationTime: Option<int>,
    KeyName: Option<string>,
    Permissions: Option<string>,
    Value: Option<string>)

  /** StorageConfig.ExtractName: the host up to the first ".blob". When the host
      has no ".blob" the slice [..-1] throws, modelled as None. */
  function ExtractName(host: string): (r: Option<string>)
    ensures r.Some? <==> Contains(host, ".blob")
    ensures r.Some? ==> |r.value| + 5 <= |host| && host[..|r.value|] == r.value
    ensures r.Some? ==> host[|r.value|..|r.value| + 5] == ".blob"
    ensures r.Some? ==> !Contains(r.value, ".blob")
  {
    var index := IndexOf(host, ".blob");
    if index < 0 then None
    else
      var name := host[..index];
      assert !Contains(name, ".blob") by {
        if Contains(name, ".blob") {
          var k := IndexOf(name, ".blob");
          assert host[k..k + 5] == name[k..k + 5];
          assert OccursAt(host, ".blob", k);
          IndexOfFirst(host, ".blob", k);
        }
      }
      Some(name)
  }

  /** ContainerFiltration.ExtractContainerName: split on the first ':'. */
  function ExtractContainerName(filter: string): (r: ContainerSelector)
    ensures ':' !in filter ==> r == ContainerSelector(filter, "")
    ensures ':' in filter ==> r.Key + ":" + r.Value == filter
    ensures ':' !in r.Key
  {
    var index := IndexOfChar(filter, ':');
    if index == -1 then
      ContainerSelector(filter, "")
    else
      assert filter == filter[..index] + ":" + filter[index + 1..] by {
        assert filter[index..index + 1] == ":";
      }
      ContainerSelector(filter[..index], filter[index + 1..])
  }

  /** The key ends at the first ':' and the value is everything after it. */
  lemma SplitAtFirstColon(filter: string, i: nat)
    requires i < |filter| && filter[i] == ':' && ':' !in filter[..i]
    ensures ExtractContainerName(filter) == ContainerSelector(filter[..i], filter[i + 1..])
  {
    FirstIndexOfChar(filter, ':', i);
  }

  /** Only the first ':' splits: the value keeps any later ':'. */
  lemma ValueKeepsLaterColons()
    ensures ExtractContainerName("c:a:b") == ContainerSelector("c", "a:b")
  {
    SplitAtFirstColon("c:a:b", 1);
  }

  /** BlobData: a listed blob (or a whole container) and how to address it.
      Null fields are modelled as "": ToString treats null and "" alike. */
  datatype BlobData = BlobData(
    Name: string,
    ContainerName: string,
    StorageURL: string,
    Query: string,
    IncludePaths: string,
    IncludePatterns: string)
  {
    /** BlobData.ToString: the address of the blob, or the bare storage URL. */
    function ToString(): (r: string)
      ensures |StorageURL| <= |r| && r[..|StorageURL|] == StorageURL
    {
      if IsNullOrEmpty(ContainerName) then StorageURL
      else StorageURL + ContainerName + "/" + Name + Query
    }
  }

  /** Splits an address built by ToString back into container name and the
      rest, given the storage URL it starts with. */
  function SplitAddress(address: string, storageUrl: string): Option<(string, string)> {
    if |address| < |storageUrl| || address[..|storageUrl|] != storageUrl then None
    else
      var rest := address[|storageUrl|..];
      var i := IndexOfChar(rest, '/');
      if i < 0 then None else Some((rest[..i], rest[i + 1..]))
  }

  /** A container name without '/' can be read back from the address, and so
      can the blob name followed by the query. */
  lemma ToStringSplitsBack(b: BlobData)
    requires b.ContainerName != "" && '/' !in b.ContainerName
    ensures SplitAddress(b.ToString(), b.StorageURL) == Some((b.ContainerName, b.Name + b.Query))
  {
    var rest := b.ToString()[|b.StorageURL|..];
    assert rest == b.ContainerName + "/" + b.Name + b.Query;
    assert rest[..|b.ContainerName|] == b.ContainerName;
    FirstIndexOfChar(rest, '/', |b.ContainerName|);
    assert rest[|b.ContainerName| + 1..] == b.Name + b.Query;
  }

  /** Without a container name, Name and Query do not affect the address. */
  lemma ToStringIgnoresBlobWithoutContainer(b: BlobData, name: string, query: string)
    requires b.ContainerName == ""
    ensures b.(Name := name, Query := query).ToString() == b.ToString() == b.StorageURL
  {
  }
}
