/** AzService.cs: the azcopy command lines, the SAS-URL choice and the
    container and blob listings. The Azure SDK and the az CLI are the
    function-typed fields of AzureApi; everything else is modelled as written. */
module AzService {
  import opened Wrappers
  import opened Strings
  import opened Model

  /** The account name, access key and endpoint URL every SDK client is built from. */
  datatype Credentials = Credentials(accountName: string, accessKey: string, storageUrl: string)

  /** BlobContainer: one listed container and its last-modified instant. */
  datatype BlobContainer = BlobContainer(Name: string, LastModified: int)

  /** BlobHierarchyItem: a blob or a virtual directory. */
  datatype HierarchyItem = BlobItem(name: string) | PrefixItem(prefix: string)

  /** What the Azure SDK and the az CLI answer. None stands for a
      RequestFailedException (or, for storageKeys, an empty CLI output). */
  datatype AzureApi = AzureApi(
    // `az storage account keys list` under the given subscription, resource group, account
    storageKeys: (string, string, string) -> Option<seq<StorageKeys>>,
    // GenerateAccountSasUri(...).AbsoluteUri, "" when the request failed
    accountSas: Credentials -> string,
    // the container SAS URI after creating a missing container, "" when the request failed
    containerSas: (Credentials, string) -> string,
    // the pages of GetBlobContainersAsync
    containerPages: Credentials -> Option<seq<seq<BlobContainer>>>,
    // the query of the container SAS URI built in GetBlobsList
    containerQuery: (Credentials, string) -> Option<string>,
    // the pages of GetBlobsByHierarchyAsync(prefix) on a container
    hierarchyPages: (Credentials, string, string) -> Option<seq<seq<HierarchyItem>>>,
    // the pages of GetBlobsAsync on a container
    blobPages: (Credentials, string) -> Option<seq<seq<string>>>,
    // the query of a blob's SAS URI
    blobQuery: (Credentials, string, string) -> string)

  /** The attribute of a Copy call with an include directive. */
  datatype Include = Include(value: string, kind: AttributeType)

  /** One Copy call: what one element of the task list runs. */
  datatype CopyDirective = CopyDirective(source: string, target: string, includes: Option<Include>)

  // ---------------------------------------------------------------------------
  // azcopy command lines

  /** The switch over AttributeType; values outside the enum fall back to a path filter. */
  function IncludeFlag(t: AttributeType): (flag: string)
    ensures t == Pattern ==> flag == "--include-pattern"
    ensures t == After ==> flag == "--include-after"
    ensures t != Pattern && t != After ==> flag == "--include-path"
  {
    if t == Pattern then "--include-pattern"
    else if t == Path then "--include-path"
    else if t == After then "--include-after"
    else "--include-path"
  }

  /** The start of every copy command, up to the source URL's opening quote. */
  const CopyPrefix := "azcopy copy \""

  /** The options both Copy overloads pass after the two quoted URLs. */
  const CopyOptions := " --recursive=true --overwrite=false"

  /** Copy(source, target): the whole-tree command. */
  function CopyCommand(source: string, target: string): string {
    CopyPrefix + source + "\" \"" + target + "\"" + CopyOptions
  }

  /** Copy(source, target, includes, type): the command with an include filter. */
  function CopyIncludeCommand(source: string, target: string, includes: string, t: AttributeType): string {
    CopyPrefix + source + "\" \"" + target + "\"" + CopyOptions + " " + IncludeFlag(t) + "=" + includes
  }

  /** The command a directive runs. */
  function Command(d: CopyDirective): string {
    match d.includes
    case None => CopyCommand(d.source, d.target)
    case Some(inc) => CopyIncludeCommand(d.source, d.target, inc.value, inc.kind)
  }

  /** The include overload is the plain command followed by " <flag>=<includes>". */
  lemma IncludeCommandExtendsPlain(source: string, target: string, includes: string, t: AttributeType)
    ensures CopyIncludeCommand(source, target, includes, t)
         == CopyCommand(source, target) + " " + IncludeFlag(t) + "=" + includes
  {
  }

  /** Reads the two quoted URLs back from a command, with what follows them. */
  function ParseCommand(cmd: string): Option<(string, string, string)> {
    if |cmd| < |CopyPrefix| || cmd[..|CopyPrefix|] != CopyPrefix then None
    else
      var rest := cmd[|CopyPrefix|..];
      var i := IndexOfChar(rest, '"');
      if i < 0 then None
      else
        var afterSource := rest[i + 1..];
        if |afterSource| < 2 || afterSource[..2] != " \"" then None
        else
          var tail := afterSource[2..];
          var j := IndexOfChar(tail, '"');
          if j < 0 then None
          else Some((rest[..i], tail[..j], tail[j + 1..]))
  }

  /** Parsing a command built from URLs without '"' gives back the URLs and
      the options that follow them. */
  lemma CommandRoundTrip(source: string, target: string, options: string)
    requires '"' !in source && '"' !in target
    ensures ParseCommand(CopyPrefix + source + "\" \"" + target + "\"" + options)
         == Some((source, target, options))
  {
    var tail := target + "\"" + options;
    var rest := source + "\"" + (" \"" + tail);
    var cmd := CopyPrefix + source + "\" \"" + target + "\"" + options;
    assert cmd == CopyPrefix + rest;
    assert cmd[..|CopyPrefix|] == CopyPrefix && cmd[|CopyPrefix|..] == rest;
    QuotedPrefix(source, " \"" + tail);
    assert (" \"" + tail)[..2] == " \"" && (" \"" + tail)[2..] == tail;
    QuotedPrefix(target, options);
  }

  /** The first '"' of s + '"' + rest is the one after s, when s has none. */
  lemma QuotedPrefix(s: string, rest: string)
    requires '"' !in s
    ensures IndexOfChar(s + "\"" + rest, '"') == |s|
    ensures (s + "\"" + rest)[..|s|] == s && (s + "\"" + rest)[|s| + 1..] == rest
  {
    var t := s + "\"" + rest;
    assert t[..|s|] == s;
    FirstIndexOfChar(t, '"', |s|);
  }

  /** Every command carries the directive's two URLs, followed by the fixed
      options and, for an include directive, the flag and its value. */
  lemma CommandCarriesDirective(d: CopyDirective)
    requires '"' !in d.source && '"' !in d.target
    ensures d.includes.None? ==>
      ParseCommand(Command(d)) == Some((d.source, d.target, CopyOptions))
    ensures d.includes.Some? ==>
      ParseCommand(Command(d)) == Some((d.source, d.target,
        CopyOptions + " " + IncludeFlag(d.includes.value.kind) + "=" + d.includes.value.value))
  {
    match d.includes
    case None =>
      CommandRoundTrip(d.source, d.target, CopyOptions);
    case Some(inc) =>
      var options := CopyOptions + " " + IncludeFlag(inc.kind) + "=" + inc.value;
      assert Command(d) == CopyPrefix + d.source + "\" \"" + d.target + "\"" + options;
      CommandRoundTrip(d.source, d.target, options);
  }

  // ---------------------------------------------------------------------------
  // SAS URLs

  /** GenerateBlobStorageSASUrl: an account SAS when the container name is null
      or blank, a container SAS otherwise. A null name is modelled as "". */
  function GenerateBlobStorageSASUrl(api: AzureApi, cred: Credentials, containerName: string): string {
    if IsNullOrWhiteSpace(containerName) then api.accountSas(cred)
    else api.containerSas(cred, containerName)
  }

  /** A blank container name is the same as passing none: the URL covers the
      whole account. */
  lemma BlankContainerMeansAccount(api: AzureApi, cred: Credentials, containerName: string)
    requires IsNullOrWhiteSpace(containerName)
    ensures GenerateBlobStorageSASUrl(api, cred, containerName) == GenerateBlobStorageSASUrl(api, cred, "")
    ensures GenerateBlobStorageSASUrl(api, cred, containerName) == api.accountSas(cred)
  {
  }

  // ---------------------------------------------------------------------------
  // Listings

  /** The items of a paged listing, page after page. */
  function Flatten<T>(pages: seq<seq<T>>): seq<T> {
    if pages == [] then [] else Flatten(pages[..|pages| - 1]) + pages[|pages| - 1]
  }

  /** An item is in the flattened listing exactly when it is on some page. */
  lemma {:induction false} FlattenMembers<T>(pages: seq<seq<T>>, x: T)
    ensures x in Flatten(pages) <==> exists i :: 0 <= i < |pages| && x in pages[i]
  {
    if pages != [] {
      var init := pages[..|pages| - 1];
      FlattenMembers(init, x);
      assert forall i :: 0 <= i < |init| ==> init[i] == pages[i];
    }
  }

  lemma FlattenStep<T>(pages: seq<seq<T>>, p: nat)
    requires p < |pages|
    ensures Flatten(pages[..p + 1]) == Flatten(pages[..p]) + pages[p]
  {
    assert pages[..p + 1][..p] == pages[..p];
  }

  /** GetContainerList as a value: every listed container, in listing order. */
  function ContainerList(api: AzureApi, cred: Credentials): Option<seq<BlobContainer>> {
    match api.containerPages(cred)
    case None => None
    case Some(pages) => Some(Flatten(pages))
  }

  /** GetContainerList: collects the containers of every page; a failed request
      is rethrown (None). */
  method GetContainerList(api: AzureApi, cred: Credentials) returns (r: Option<seq<BlobContainer>>)
    ensures r == ContainerList(api, cred)
  {
    var pages := api.containerPages(cred);
    if pages.None? {
      return None;
    }
    var lst: seq<BlobContainer> := [];
    for p := 0 to |pages.value|
      invariant lst == Flatten(pages.value[..p])
    {
      var page := pages.value[p];
      for k := 0 to |page|
        invariant lst == Flatten(pages.value[..p]) + page[..k]
      {
        lst := lst + [page[k]];
        assert page[..k + 1] == page[..k] + [page[k]];
      }
      assert page[..|page|] == page;
      FlattenStep(pages.value, p);
    }
    assert pages.value[..|pages.value|] == pages.value;
    return Some(lst);
  }

  /** The names of the blob items, skipping virtual directories. */
  function BlobNames(items: seq<HierarchyItem>): seq<string> {
    if items == [] then []
    else
      var last := items[|items| - 1];
      BlobNames(items[..|items| - 1]) + (if last.BlobItem? then [last.name] else [])
  }

  lemma BlobNamesSnoc(items: seq<HierarchyItem>, x: HierarchyItem)
    ensures BlobNames(items + [x]) == BlobNames(items) + (if x.BlobItem? then [x.name] else [])
  {
    assert (items + [x])[..|items|] == items;
  }

  /** A name is listed exactly when a blob item carries it. */
  lemma {:induction false} BlobNamesMembers(items: seq<HierarchyItem>, n: string)
    ensures n in BlobNames(items) <==> BlobItem(n) in items
  {
    if items != [] {
      var init := items[..|items| - 1];
      BlobNamesMembers(init, n);
      assert items == init + [items[|items| - 1]];
    }
  }

  /** The names that contain the needle, in listing order. */
  function Matching(names: seq<string>, needle: string): seq<string> {
    if names == [] then []
    else
      var last := names[|names| - 1];
      Matching(names[..|names| - 1], needle) + (if Contains(last, needle) then [last] else [])
  }

  lemma MatchingSnoc(names: seq<string>, n: string, needle: string)
    ensures Matching(names + [n], needle) == Matching(names, needle) + (if Contains(n, needle) then [n] else [])
  {
    assert (names + [n])[..|names|] == names;
  }

  /** A name is kept exactly when it is listed and contains the needle. */
  lemma {:induction false} MatchingMembers(names: seq<string>, needle: string, n: string)
    ensures n in Matching(names, needle) <==> n in names && Contains(n, needle)
  {
    if names != [] {
      var init := names[..|names| - 1];
      MatchingMembers(init, needle, n);
      assert names == init + [names[|names| - 1]];
    }
  }

  /** The BlobData recorded for one listed blob. */
  function Entry(api: AzureApi, cred: Credentials, container: string, name: string): BlobData {
    BlobData(name, container, cred.storageUrl, api.blobQuery(cred, container, name), "", "")
  }

  function Entries(api: AzureApi, cred: Credentials, container: string, names: seq<string>): (r: seq<BlobData>)
    ensures |r| == |names|
  {
    seq(|names|, i requires 0 <= i < |names| => Entry(api, cred, container, names[i]))
  }

  lemma EntriesSnoc(api: AzureApi, cred: Credentials, container: string, names: seq<string>, n: string)
    ensures Entries(api, cred, container, names + [n]) == Entries(api, cred, container, names) + [Entry(api, cred, container, n)]
  {
  }

  /** GetBlobsListByPrefix: one entry per blob item of the hierarchy listing,
      in listing order; virtual directories are skipped. */
  method GetBlobsListByPrefix(api: AzureApi, cred: Credentials, container: string, pages: seq<seq<HierarchyItem>>)
    returns (lst: seq<BlobData>)
    ensures lst == Entries(api, cred, container, BlobNames(Flatten(pages)))
  {
    lst := [];
    for p := 0 to |pages|
      invariant lst == Entries(api, cred, container, BlobNames(Flatten(pages[..p])))
    {
      var page := pages[p];
      assert page[..0] == [];
      assert Flatten(pages[..p]) + page[..0] == Flatten(pages[..p]);
      for k := 0 to |page|
        invariant lst == Entries(api, cred, container, BlobNames(Flatten(pages[..p]) + page[..k]))
      {
        ghost var before := Flatten(pages[..p]) + page[..k];
        assert before + [page[k]] == Flatten(pages[..p]) + page[..k + 1];
        BlobNamesSnoc(before, page[k]);
        if !page[k].BlobItem? {
          continue;
        }
        EntriesSnoc(api, cred, container, BlobNames(before), page[k].name);
        lst := lst + [Entry(api, cred, container, page[k].name)];
      }
      assert page[..|page|] == page;
      FlattenStep(pages, p);
    }
    assert pages[..|pages|] == pages;
  }

  /** GetBlobsListByWildCardSearch: the filter loses every '*'; one entry per
      listed blob whose name contains what is left, in listing order. */
  method GetBlobsListByWildCardSearch(api: AzureApi, cred: Credentials, container: string, pages: seq<seq<string>>, filter: string)
    returns (lst: seq<BlobData>)
    ensures lst == Entries(api, cred, container, Matching(Flatten(pages), Replace(filter, "*", "")))
  {
    var needle := Replace(filter, "*", "");
    lst := [];
    for p := 0 to |pages|
      invariant lst == Entries(api, cred, container, Matching(Flatten(pages[..p]), needle))
    {
      var page := pages[p];
      assert page[..0] == [];
      assert Flatten(pages[..p]) + page[..0] == Flatten(pages[..p]);
      for k := 0 to |page|
        invariant lst == Entries(api, cred, container, Matching(Flatten(pages[..p]) + page[..k], needle))
      {
        ghost var before := Flatten(pages[..p]) + page[..k];
        assert before + [page[k]] == Flatten(pages[..p]) + page[..k + 1];
        MatchingSnoc(before, page[k], needle);
        EntriesSnoc(api, cred, container, Matching(before, needle), page[k]);
        if !Contains(page[k], needle) {
          continue;
        }
        lst := lst + [Entry(api, cred, container, page[k])];
      }
      assert page[..|page|] == page;
      FlattenStep(pages, p);
    }
    assert pages[..|pages|] == pages;
  }

  /** GetBlobsList as a value. */
  function BlobsList(api: AzureApi, cred: Credentials, filter: string): seq<BlobData> {
    var info := ExtractContainerName(filter);
    if IsNullOrWhiteSpace(info.Value) then
      [BlobData("", "", GenerateBlobStorageSASUrl(api, cred, info.Key), "", "", "")]
    else
      match api.containerQuery(cred, info.Key)
      case None => []
      case Some(query) =>
        var found :=
          if info.Value[0] != '*' then
            match api.hierarchyPages(cred, info.Key, info.Value)
            case None => None
            case Some(pages) => Some(Entries(api, cred, info.Key, BlobNames(Flatten(pages))))
          else
            match api.blobPages(cred, info.Key)
            case None => None
            case Some(pages) => Some(Entries(api, cred, info.Key, Matching(Flatten(pages), Replace(info.Value, "*", ""))));
        match found
        case None => []
        case Some(lst) =>
          if |lst| == 0 then [BlobData("", info.Key, cred.storageUrl, query, "", "")] else lst
  }

  /** GetBlobsList: a blank include directive yields the container's SAS URL;
      otherwise the blobs matched by prefix or by wildcard, or, when none
      matched, one entry for the container itself. A failed request yields the
      empty list. */
  method GetBlobsList(api: AzureApi, cred: Credentials, filter: string) returns (lst: seq<BlobData>)
    ensures lst == BlobsList(api, cred, filter)
  {
    var info := ExtractContainerName(filter);
    if IsNullOrWhiteSpace(info.Value) {
      var fullURL := GenerateBlobStorageSASUrl(api, cred, info.Key);
      return [BlobData("", "", fullURL, "", "", "")];
    }
    var query := api.containerQuery(cred, info.Key);
    if query.None? {
      return [];
    }
    if info.Value[0] != '*' {
      var pages := api.hierarchyPages(cred, info.Key, info.Value);
      if pages.None? {
        return [];
      }
      lst := GetBlobsListByPrefix(api, cred, info.Key, pages.value);
    } else {
      var pages := api.blobPages(cred, info.Key);
      if pages.None? {
        return [];
      }
      lst := GetBlobsListByWildCardSearch(api, cred, info.Key, pages.value, info.Value);
    }
    if |lst| == 0 {
      lst := [BlobData("", info.Key, cred.storageUrl, query.value, "", "")];
    }
  }

  /** An entry names its blob: it is among the entries exactly when its name
      is among the names. */
  lemma EntriesMembers(api: AzureApi, cred: Credentials, container: string, names: seq<string>, n: string)
    ensures Entry(api, cred, container, n) in Entries(api, cred, container, names) <==> n in names
  {
    var es := Entries(api, cred, container, names);
    if n in names {
      var i :| 0 <= i < |names| && names[i] == n;
      assert es[i] == Entry(api, cred, container, n);
    }
    if Entry(api, cred, container, n) in es {
      var i :| 0 <= i < |es| && es[i] == Entry(api, cred, container, n);
      assert names[i] == es[i].Name;
    }
  }

  /** Listing by prefix, once the container's SAS and the listing succeed:
      never empty, every entry addresses the container, and a (non-empty)
      blob name is listed exactly when the hierarchy listing has it as a blob
      item rather than a virtual directory. */
  lemma PrefixListing(api: AzureApi, cred: Credentials, filter: string, pages: seq<seq<HierarchyItem>>, n: string)
    requires !IsNullOrWhiteSpace(ExtractContainerName(filter).Value)
    requires ExtractContainerName(filter).Value[0] != '*'
    requires api.containerQuery(cred, ExtractContainerName(filter).Key).Some?
    requires api.hierarchyPages(cred, ExtractContainerName(filter).Key, ExtractContainerName(filter).Value) == Some(pages)
    ensures |BlobsList(api, cred, filter)| >= 1
    ensures forall e :: e in BlobsList(api, cred, filter) ==>
      e.ContainerName == ExtractContainerName(filter).Key && e.StorageURL == cred.storageUrl
    ensures n != "" ==>
      (Entry(api, cred, ExtractContainerName(filter).Key, n) in BlobsList(api, cred, filter) <==> BlobItem(n) in Flatten(pages))
  {
    var key := ExtractContainerName(filter).Key;
    var names := BlobNames(Flatten(pages));
    EntriesMembers(api, cred, key, names, n);
    BlobNamesMembers(Flatten(pages), n);
  }

  /** Listing by wildcard, once the container's SAS and the listing succeed:
      the needle has no '*' left, the result is never empty, and a (non-empty)
      blob name is listed exactly when the listing has it and it contains the
      needle. */
  lemma WildcardListing(api: AzureApi, cred: Credentials, filter: string, pages: seq<seq<string>>, n: string)
    requires !IsNullOrWhiteSpace(ExtractContainerName(filter).Value)
    requires ExtractContainerName(filter).Value[0] == '*'
    requires api.containerQuery(cred, ExtractContainerName(filter).Key).Some?
    requires api.blobPages(cred, ExtractContainerName(filter).Key) == Some(pages)
    ensures '*' !in Replace(ExtractContainerName(filter).Value, "*", "")
    ensures |BlobsList(api, cred, filter)| >= 1
    ensures forall e :: e in BlobsList(api, cred, filter) ==>
      e.ContainerName == ExtractContainerName(filter).Key && e.StorageURL == cred.storageUrl
    ensures n != "" ==>
      (Entry(api, cred, ExtractContainerName(filter).Key, n) in BlobsList(api, cred, filter) <==>
        n in Flatten(pages) && Contains(n, Replace(ExtractContainerName(filter).Value, "*", "")))
  {
    var info := ExtractContainerName(filter);
    var needle := Replace(info.Value, "*", "");
    RemoveCharRemovesAll(info.Value, '*');
    EntriesMembers(api, cred, info.Key, Matching(Flatten(pages), needle), n);
    MatchingMembers(Flatten(pages), needle, n);
  }
}
