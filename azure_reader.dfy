/**
 * The AzureReader2 plugin: a virtual-file provider that serves Azure Blob
 * Storage blobs under a virtual path prefix, and can redirect plain requests
 * straight to the storage endpoint.
 *
 * Calls into the Azure SDK, the configuration managers and the base class
 * `BlobProviderBase` are not part of this model; each becomes a parameter (a total
 * function or an optional value) that stands for what that call returned.
 */
module AzureReader {
  import opened Wrappers
  import opened Separators

  /** A `NameValueCollection`: absent keys read as `null`. */
  type NameValueCollection = map<string, string>

  newtype byte = x: int | 0 <= x < 256

  const DEFAULT_PREFIX: string := "~/azure"
  const NOT_FOUND_STATUS: int := 404
  const MISSING_CONNECTION_MESSAGE: string :=
    "AzureReader2 requires a named connection string or a connection string to be specified with the 'connectionString' attribute."
  const INVALID_CONNECTION_MESSAGE: string :=
    "Invalid AzureReader2 connectionString value; rejected by Azure SDK."
  const BLOB_NOT_FOUND_MESSAGE: string := "Azure blob file not found"

  /** The exceptions the plugin throws or lets through. */
  datatype Exception =
    | StorageException(httpStatusCode: int)
    | FileNotFoundException(message: string, innerException: Exception)
    | InvalidOperationException(message: string)
    | ArgumentOutOfRangeException

  /** What an Azure SDK round trip gives: a value, or a `StorageException` with the HTTP status. */
  datatype StorageResponse<T> = Returned(value: T) | Failed(httpStatusCode: int)

  /** A `DateTimeOffset`: clock ticks and the offset from UTC, in ticks. */
  datatype DateTimeOffset = DateTimeOffset(clockTicks: int, offsetTicks: int) {
    /** `UtcDateTime`, in ticks. */
    function UtcTicks(): int {
      clockTicks - offsetTicks
    }
  }

  /** The part of an `ICloudBlob` the plugin reads: its `Properties.LastModified`. */
  datatype CloudBlob = CloudBlob(lastModified: Option<DateTimeOffset>)

  /** A parsed `CloudStorageAccount`, by its blob endpoint. */
  datatype StorageAccount = StorageAccount(blobEndpoint: string)

  /** A `CloudBlobClient`, by its `BaseUri.OriginalString`. */
  datatype CloudBlobClient = CloudBlobClient(baseUri: string)

  /** `BlobMetadata`: whether the blob exists and, if known, when it last changed (UTC ticks). */
  datatype BlobMetadata = BlobMetadata(exists_: bool, lastModifiedDateUtc: Option<int>)

  /** One call of the base class's `ReportReadTicks(ticks, bytes)`. */
  datatype ReadReport = ReadReport(elapsedTicks: int, length: int)

  predicate IsNullOrEmpty(s: Option<string>) {
    s.None? || s.value == []
  }

  /** The text a nullable string contributes to a C# concatenation: `null` adds nothing. */
  function OrEmpty(s: Option<string>): string {
    if s.Some? then s.value else []
  }

  predicate EndsWithSlash(s: string) {
    |s| > 0 && s[|s| - 1] == '/'
  }

  /** `args[key]`. */
  function Lookup(args: NameValueCollection, key: string): Option<string> {
    if key in args then Some(args[key]) else None
  }

  // ---------------------------------------------------------------------------
  // Blob URL resolution (GetBlobRefAsync)
  // ---------------------------------------------------------------------------

  /**
   * The URL `GetBlobRefAsync` asks the server for: the client's base URI without
   * trailing separators, one '/', and the prefix-stripped path without outer separators.
   */
  function BlobUrl(baseUri: string, subPath: string): string {
    TrimEnd(baseUri) + "/" + Trim(subPath)
  }

  /**
   * The join in a blob URL: everything before the joining '/' is the base URI
   * minus only trailing separators, everything after it is the sub-path minus
   * only its outer separators, and neither neighbour of the join is a separator.
   */
  lemma BlobUrlJoin(baseUri: string, subPath: string)
    ensures var url, k := BlobUrl(baseUri, subPath), |TrimEnd(baseUri)|;
      && k < |url| && url[k] == '/'
      && k <= |baseUri| && url[..k] == baseUri[..k] && AllSeparators(baseUri[k..])
      && (k == 0 || !IsSeparator(url[k - 1]))
      && (k + 1 == |url| || !IsSeparator(url[k + 1]))
      && (k + 1 == |url| || !IsSeparator(url[|url| - 1]))
      && url[k + 1..] == Trim(subPath)
  {
    SlashJoin(TrimEnd(baseUri), Trim(subPath));
  }

  /** Facts about `left + "/" + right` for a left side not ending and a right side neither starting nor ending in a separator. */
  lemma SlashJoin(left: string, right: string)
    requires left == [] || !IsSeparator(left[|left| - 1])
    requires right == [] || (!IsSeparator(right[0]) && !IsSeparator(right[|right| - 1]))
    ensures var url, k := left + "/" + right, |left|;
      && k < |url| && url[k] == '/' && url[..k] == left && url[k + 1..] == right
      && (k == 0 || !IsSeparator(url[k - 1]))
      && (k + 1 == |url| || (!IsSeparator(url[k + 1]) && !IsSeparator(url[|url| - 1])))
  {
    var url, k := left + "/" + right, |left|;
    assert url[..k] == left;
    assert url[k + 1..] == right;
    assert k > 0 ==> url[k - 1] == left[k - 1];
    assert k + 1 < |url| ==> url[k + 1] == right[0] && url[|url| - 1] == right[|right| - 1];
  }

  /**
   * Any number of extra separators at the end of the base URI, or at either end
   * of the sub-path, resolve to the same blob URL.
   */
  lemma BlobUrlIgnoresPadding(baseUri: string, pad: string, subPath: string, lead: string, trail: string)
    requires AllSeparators(pad) && AllSeparators(lead) && AllSeparators(trail)
    ensures BlobUrl(baseUri + pad, lead + subPath + trail) == BlobUrl(baseUri, subPath)
  {
    TrimEndSkipsPadding(baseUri, pad);
    TrimIgnoresPadding(lead, subPath, trail);
  }

  /** Resolution is a function of its inputs: the same path gives the same URL, and resolving a resolved sub-path again changes nothing. */
  lemma BlobUrlStable(baseUri: string, subPath: string)
    ensures BlobUrl(TrimEnd(baseUri), Trim(subPath)) == BlobUrl(baseUri, subPath)
  {
    var b := TrimEnd(baseUri);
    TrimIdempotent(subPath);
    assert TrimEnd(b) == b by {
      TrimEndSkipsPadding(b, []);
      assert b + [] == b;
      if b != [] {
        assert !IsSeparator(b[|b| - 1]);
      }
    }
  }

  /**
   * A base URI with one trailing '/' and a sub-path with one leading '/' join without a
   * doubled separator: with `https://svc.example/acct` and `container/img.png` this is
   * `https://svc.example/acct/container/img.png`.
   */
  lemma BlobUrlOfCleanParts(base: string, path: string)
    requires base == [] || !IsSeparator(base[|base| - 1])
    requires path == [] || (!IsSeparator(path[0]) && !IsSeparator(path[|path| - 1]))
    ensures BlobUrl(base + "/", "/" + path) == base + "/" + path
  {
    assert AllSeparators("/");
    TrimEndSkipsPadding(base, "/");
    TrimStartSkipsPadding("/", path);
    NoTrailingSeparator(base);
    NoOuterSeparators(path);
  }

  // ---------------------------------------------------------------------------
  // Connection string fallback and endpoint normalisation (Install)
  // ---------------------------------------------------------------------------

  /** The first candidate that is neither null nor empty: the ordered fallback of `Install`. */
  function FirstNonEmpty(candidates: seq<Option<string>>): (r: Option<string>)
    ensures r.None? <==> forall i :: 0 <= i < |candidates| ==> IsNullOrEmpty(candidates[i])
    ensures r.Some? ==> r.value != []
    ensures r.Some? ==>
              exists i :: 0 <= i < |candidates| && candidates[i] == r &&
                            forall j :: 0 <= j < i ==> IsNullOrEmpty(candidates[j])
  {
    if candidates == [] then None
    else if !IsNullOrEmpty(candidates[0]) then candidates[0]
    else
      var r := FirstNonEmpty(candidates[1..]);
      assert forall i :: 1 <= i < |candidates| ==> candidates[i] == candidates[1..][i - 1];
      r
  }

  /** With a non-empty setting name last in the chain, the connection string is never null or empty. */
  lemma ConnectionStringNeverEmpty(name: string, appSetting: Option<string>, namedConnection: Option<string>)
    requires name != []
    ensures FirstNonEmpty([appSetting, namedConnection, Some(name)]).Some?
    ensures FirstNonEmpty([appSetting, namedConnection, Some(name)]).value != []
  {
    assert !IsNullOrEmpty([appSetting, namedConnection, Some(name)][2]);
  }

  /**
   * The endpoint `Install` leaves behind: the configured one when it is neither null nor
   * empty, else the account's blob endpoint, with a '/' appended only if it lacks one.
   */
  function NormalizedEndpoint(configured: Option<string>, accountEndpoint: string): (r: string)
    ensures EndsWithSlash(r)
    ensures var chosen := if IsNullOrEmpty(configured) then accountEndpoint else configured.value;
            && |chosen| <= |r| <= |chosen| + 1 && r[..|chosen|] == chosen
            && (EndsWithSlash(chosen) ==> r == chosen)
  {
    var chosen := if IsNullOrEmpty(configured) then accountEndpoint else configured.value;
    if EndsWithSlash(chosen) then chosen else chosen + "/"
  }

  /** Installing again over a normalised endpoint keeps it as it is, whatever the account. */
  lemma NormalizedEndpointIdempotent(configured: Option<string>, accountEndpoint: string, laterAccountEndpoint: string)
    ensures var e := NormalizedEndpoint(configured, accountEndpoint);
            NormalizedEndpoint(Some(e), laterAccountEndpoint) == e
  {
  }

  // ---------------------------------------------------------------------------
  // Status translation (FetchMetadataAsync, OpenAsync)
  // ---------------------------------------------------------------------------

  /** `FetchMetadataAsync` given what the server lookup gave. */
  function MetadataFrom(lookup: StorageResponse<CloudBlob>): (r: Result<BlobMetadata, Exception>)
    ensures r.Err? <==> lookup.Failed? && lookup.httpStatusCode != NOT_FOUND_STATUS
    ensures r.Err? ==> r.error == StorageException(lookup.httpStatusCode)
    ensures r.Ok? ==> (r.value.exists_ <==> lookup.Returned?)
    ensures r.Ok? && !r.value.exists_ ==> r.value.lastModifiedDateUtc.None?
    ensures r.Ok? && r.value.exists_ ==>
              (r.value.lastModifiedDateUtc.Some? <==> lookup.value.lastModified.Some?)
              && (r.value.lastModifiedDateUtc.Some? ==>
                    r.value.lastModifiedDateUtc.value == lookup.value.lastModified.value.UtcTicks())
  {
    match lookup
    case Failed(status) =>
      if status == NOT_FOUND_STATUS then Ok(BlobMetadata(false, None))
      else Err(StorageException(status))
    case Returned(blob) =>
      var utc := blob.lastModified;
      Ok(BlobMetadata(true, if utc != None then Some(utc.value.UtcTicks()) else None))
  }

  /** The exception `OpenAsync` throws for a failed storage call with this status. */
  function OpenFailure(status: int): (e: Exception)
    ensures e.FileNotFoundException? <==> status == NOT_FOUND_STATUS
    ensures e.FileNotFoundException? ==>
              e.message == BLOB_NOT_FOUND_MESSAGE && e.innerException == StorageException(status)
    ensures !e.FileNotFoundException? ==> e == StorageException(status)
  {
    if status == NOT_FOUND_STATUS then FileNotFoundException(BLOB_NOT_FOUND_MESSAGE, StorageException(status))
    else StorageException(status)
  }

  /** The bytes `OpenAsync` delivers, or what it throws, given the lookup and the download. */
  function OpenOutcome(lookup: StorageResponse<CloudBlob>, download: CloudBlob -> StorageResponse<seq<byte>>)
    : (r: Result<seq<byte>, Exception>)
    ensures r.Ok? <==> lookup.Returned? && download(lookup.value).Returned?
    ensures r.Ok? ==> r.value == download(lookup.value).value
    ensures lookup.Failed? ==> r == Err(OpenFailure(lookup.httpStatusCode))
    ensures lookup.Returned? && download(lookup.value).Failed? ==>
              r == Err(OpenFailure(download(lookup.value).httpStatusCode))
  {
    match lookup
    case Failed(status) => Err(OpenFailure(status))
    case Returned(blob) =>
      match download(blob)
      case Failed(status) => Err(OpenFailure(status))
      case Returned(bytes) => Ok(bytes)
  }

  /**
   * Metadata and open agree: a blob reported missing cannot be opened (file not found),
   * a lookup failure other than 404 reaches both callers as the same storage exception,
   * and a blob that opens is reported as existing.
   */
  lemma MetadataAgreesWithOpen(lookup: StorageResponse<CloudBlob>, download: CloudBlob -> StorageResponse<seq<byte>>)
    ensures MetadataFrom(lookup).Ok? && !MetadataFrom(lookup).value.exists_ ==>
              OpenOutcome(lookup, download).Err? && OpenOutcome(lookup, download).error.FileNotFoundException?
    ensures MetadataFrom(lookup).Err? ==> OpenOutcome(lookup, download) == Err(MetadataFrom(lookup).error)
    ensures OpenOutcome(lookup, download).Ok? ==> MetadataFrom(lookup).Ok? && MetadataFrom(lookup).value.exists_
  {
  }

  // ---------------------------------------------------------------------------
  // Redirect shortcut (Pipeline_PostRewrite)
  // ---------------------------------------------------------------------------

  /** `target` is `endpoint` followed by `rest` with its leading separators, and only those, removed. */
  predicate RedirectsTo(target: string, endpoint: string, rest: string) {
    && |endpoint| <= |target| && target[..|endpoint|] == endpoint
    && var tail := target[|endpoint|..];
       && |tail| <= |rest| && tail == rest[|rest| - |tail|..]
       && AllSeparators(rest[..|rest| - |tail|])
       && (tail == [] || !IsSeparator(tail[0]))
  }

  /**
   * The post-rewrite decision: `Ok(Some(url))` is a redirect to `url`, `Ok(None)` leaves the
   * request to the pipeline, and `Err` is the exception `Substring(prefix.Length)` throws when
   * the path is shorter than the prefix.
   */
  function RedirectDecision(enabled: bool, belongs: bool, hasPipelineDirective: bool,
                            prefix: string, virtualPath: string, endpoint: Option<string>)
    : (r: Result<Option<string>, Exception>)
    ensures r == Ok(None) <==> !(enabled && belongs && !hasPipelineDirective)
    ensures r.Err? <==> enabled && belongs && !hasPipelineDirective && |virtualPath| < |prefix|
    ensures r.Err? ==> r.error == ArgumentOutOfRangeException
    ensures r.Ok? && r.value.Some? ==> |prefix| <= |virtualPath|
                                       && RedirectsTo(r.value.value, OrEmpty(endpoint), virtualPath[|prefix|..])
  {
    if enabled && belongs && !hasPipelineDirective then
      if |virtualPath| < |prefix| then Err(ArgumentOutOfRangeException)
      else
        var rest := virtualPath[|prefix|..];
        var target := OrEmpty(endpoint) + TrimStart(rest);
        assert target[|OrEmpty(endpoint)|..] == TrimStart(rest);
        Ok(Some(target))
    else
      Ok(None)
  }

  /**
   * When the endpoint is the client's base URI with one trailing '/', the base class strips
   * exactly the prefix, and the rest of the path has no trailing separator, the redirect goes
   * to the very URL the plugin would have fetched the blob from.
   */
  lemma RedirectMatchesBlobUrl(prefix: string, virtualPath: string, baseUri: string)
    requires |prefix| <= |virtualPath|
    requires var rest := virtualPath[|prefix|..]; rest == [] || !IsSeparator(rest[|rest| - 1])
    ensures RedirectDecision(true, true, false, prefix, virtualPath, Some(TrimEnd(baseUri) + "/"))
         == Ok(Some(BlobUrl(baseUri, virtualPath[|prefix|..])))
  {
    var rest := virtualPath[|prefix|..];
    var t := TrimStart(rest);
    assert t == [] || t[|t| - 1] == rest[|rest| - 1];
    NoTrailingSeparator(t);
    assert Trim(rest) == t;
  }

  /**
   * Unlike the blob URL, the redirect target keeps trailing separators: a path that ends in
   * '/' after a non-separator is redirected to a URL ending in '/', while the blob URL does not.
   */
  lemma RedirectKeepsTrailingSeparators(prefix: string, virtualPath: string, endpoint: string, baseUri: string)
    requires |prefix| <= |virtualPath|
    requires var rest := virtualPath[|prefix|..];
             !AllSeparators(rest) && IsSeparator(rest[|rest| - 1])
    ensures var r := RedirectDecision(true, true, false, prefix, virtualPath, Some(endpoint));
            r.Ok? && r.value.Some? && r.value.value != [] && IsSeparator(r.value.value[|r.value.value| - 1])
    ensures var url := BlobUrl(baseUri, virtualPath[|prefix|..]);
            !IsSeparator(url[|url| - 1])
  {
    RedirectTargetEndsAsPath(prefix, virtualPath, endpoint);
    BlobUrlEndsClean(baseUri, virtualPath[|prefix|..]);
  }

  /** A blob URL for a sub-path that is not only separators never ends in a separator. */
  lemma BlobUrlEndsClean(baseUri: string, subPath: string)
    requires !AllSeparators(subPath)
    ensures var url := BlobUrl(baseUri, subPath); !IsSeparator(url[|url| - 1])
  {
    TrimEmptyOnlyIfAllSeparators(subPath);
    BlobUrlJoin(baseUri, subPath);
  }

  /** When the rest of the path is not only separators, the redirect target ends with the path's own last character. */
  lemma RedirectTargetEndsAsPath(prefix: string, virtualPath: string, endpoint: string)
    requires |prefix| <= |virtualPath| && !AllSeparators(virtualPath[|prefix|..])
    ensures var r := RedirectDecision(true, true, false, prefix, virtualPath, Some(endpoint));
            r.Ok? && r.value.Some? && r.value.value != []
            && r.value.value[|r.value.value| - 1] == virtualPath[|virtualPath| - 1]
  {
    var rest := virtualPath[|prefix|..];
    var t := TrimStart(rest);
    assert t[|t| - 1] == rest[|rest| - 1] == virtualPath[|virtualPath| - 1];
    assert (endpoint + t)[|endpoint + t| - 1] == t[|t| - 1];
  }

  /**
   * A plain request for `prefix + "/" + path` is redirected to the endpoint followed by
   * `path`; the same request with a processing directive is not redirected, flag or not.
   */
  lemma RedirectOfCleanPath(prefix: string, path: string, endpoint: string, enabled: bool)
    requires path == [] || !IsSeparator(path[0])
    ensures RedirectDecision(true, true, false, prefix, prefix + "/" + path, Some(endpoint))
         == Ok(Some(endpoint + path))
    ensures RedirectDecision(enabled, true, true, prefix, prefix + "/" + path, Some(endpoint))
         == Ok(None)
  {
    assert (prefix + "/" + path)[|prefix|..] == "/" + path;
    TrimStartSkipsPadding("/", path);
    TrimStartUnique(path, path);
  }

  // ---------------------------------------------------------------------------
  // Post-rewrite event subscriptions
  // ---------------------------------------------------------------------------

  /** Removing a handler from a C# event: the last occurrence goes, and an absent one is a no-op. */
  function RemoveLast<T(==)>(s: seq<T>, x: T): (r: seq<T>)
    ensures x !in s ==> r == s
    ensures x in s ==> exists i :: 0 <= i < |s| && s[i] == x && x !in s[i + 1..] && r == s[..i] + s[i + 1..]
  {
    if s == [] then []
    else
      var front, last := s[..|s| - 1], s[|s| - 1];
      assert s == front + [last];
      if last == x then
        assert s[|s| - 1 + 1..] == [] && front == s[..|s| - 1] + s[|s| - 1 + 1..];
        assert x !in s[|s| - 1 + 1..];
        front
      else
        var r := RemoveLast(front, x);
        if x in front then
          RemoveLastBeforeOther(front, last, x, r);
          r + [last]
        else
          r + [last]
  }

  /** A removal made in front of another handler carries over once that handler is appended. */
  lemma RemoveLastBeforeOther<T>(front: seq<T>, last: T, x: T, r: seq<T>)
    requires last != x
    requires exists i :: 0 <= i < |front| && front[i] == x && x !in front[i + 1..] && r == front[..i] + front[i + 1..]
    ensures var s := front + [last];
            exists i :: 0 <= i < |s| && s[i] == x && x !in s[i + 1..] && r + [last] == s[..i] + s[i + 1..]
  {
    var s := front + [last];
    var i :| 0 <= i < |front| && front[i] == x && x !in front[i + 1..] && r == front[..i] + front[i + 1..];
    assert s[..i] == front[..i];
    assert s[i + 1..] == front[i + 1..] + [last];
    assert r + [last] == s[..i] + s[i + 1..];
  }

  /** Unsubscribing takes away exactly one subscription of the handler, if it had any. */
  lemma {:induction false} RemoveLastCount<T>(s: seq<T>, x: T)
    ensures multiset(RemoveLast(s, x)) == multiset(s) - multiset{x}
  {
    if s == [] {
    } else if s[|s| - 1] == x {
      assert s == s[..|s| - 1] + [x];
    } else {
      var front := s[..|s| - 1];
      assert s == front + [s[|s| - 1]];
      RemoveLastCount(front, x);
    }
  }

  /** Subscribing and then unsubscribing restores the subscriber list. */
  lemma SubscribeThenUnsubscribe<T>(s: seq<T>, x: T)
    ensures RemoveLast(s + [x], x) == s
  {
    assert (s + [x])[..|s + [x]| - 1] == s;
  }

  // ---------------------------------------------------------------------------
  // State
  // ---------------------------------------------------------------------------

  /** The host pipeline's `PostRewrite` event: its subscribed handlers, in order. */
  class Pipeline {
    var postRewrite: seq<object>

    constructor ()
      ensures postRewrite == []
    {
      postRewrite := [];
    }
  }

  /** A `MemoryStream`: its bytes and its read/write position. */
  class MemoryStream {
    var buffer: seq<byte>
    var position: nat

    ghost predicate Valid()
      reads this
    {
      position <= |buffer|
    }

    constructor ()
      ensures Valid() && buffer == [] && position == 0
    {
      buffer := [];
      position := 0;
    }

    /** Writes `bytes` at the position, overwriting and then extending, and moves past them. */
    method Write(bytes: seq<byte>)
      requires Valid()
      modifies this
      ensures Valid()
      ensures position == old(position) + |bytes|
      ensures buffer == old(buffer[..position] + bytes
                            + if position + |bytes| < |buffer| then buffer[position + |bytes|..] else [])
    {
      var rest := if position + |bytes| < |buffer| then buffer[position + |bytes|..] else [];
      buffer := buffer[..position] + bytes + rest;
      position := position + |bytes|;
    }

    /** `Seek(0, SeekOrigin.Begin)`. */
    method Rewind()
      requires Valid()
      modifies this
      ensures Valid() && position == 0 && buffer == old(buffer)
    {
      position := 0;
    }
  }

  class AzureReaderPlugin {
    var virtualFilesystemPrefix: string
    var blobStorageConnection: Option<string>
    var blobStorageEndpoint: Option<string>
    var redirectToBlobIfUnmodified: bool
    var cloudBlobClient: Option<CloudBlobClient>
    /** What the base class's `ReportReadTicks` has been told, in order. */
    var readReports: seq<ReadReport>

    /** The parameterless constructor: only the prefix is set; the redirect flag keeps C#'s default, false. */
    constructor ()
      ensures virtualFilesystemPrefix == DEFAULT_PREFIX
      ensures blobStorageConnection == None && blobStorageEndpoint == None
      ensures !redirectToBlobIfUnmodified
      ensures cloudBlobClient == None && readReports == []
    {
      virtualFilesystemPrefix := DEFAULT_PREFIX;
      blobStorageConnection := None;
      blobStorageEndpoint := None;
      redirectToBlobIfUnmodified := false;
      cloudBlobClient := None;
      readReports := [];
    }

    /**
     * The constructor from configuration. `configuredPrefix` is the prefix the base class's
     * `LoadConfiguration` assigned, if it assigned one; `parseBool` is how `Get<bool>` reads
     * a value (`None` when it cannot).
     */
    constructor FromArgs(args: NameValueCollection, configuredPrefix: Option<string>,
                         parseBool: string -> Option<bool>)
      ensures virtualFilesystemPrefix == if configuredPrefix.Some? then configuredPrefix.value else DEFAULT_PREFIX
      ensures blobStorageConnection == Lookup(args, "connectionstring")
      ensures "blobstorageendpoint" in args ==> blobStorageEndpoint == Some(args["blobstorageendpoint"])
      ensures "blobstorageendpoint" !in args && "endpoint" in args ==> blobStorageEndpoint == Some(args["endpoint"])
      ensures "blobstorageendpoint" !in args && "endpoint" !in args ==> blobStorageEndpoint == None
      ensures var key := "redirectToBlobIfUnmodified";
              redirectToBlobIfUnmodified ==
                if key in args && parseBool(args[key]).Some? then parseBool(args[key]).value else true
      ensures cloudBlobClient == None && readReports == []
    {
      virtualFilesystemPrefix := if configuredPrefix.Some? then configuredPrefix.value else DEFAULT_PREFIX;
      blobStorageConnection := Lookup(args, "connectionstring");
      var endpoint := Lookup(args, "endpoint");
      var blobEndpoint := Lookup(args, "blobstorageendpoint");
      blobStorageEndpoint := if blobEndpoint.Some? then blobEndpoint else endpoint;
      var redirect := Lookup(args, "redirectToBlobIfUnmodified");
      var parsed := if redirect.Some? then parseBool(redirect.value) else None;
      redirectToBlobIfUnmodified := if parsed.Some? then parsed.value else true;
      cloudBlobClient := None;
      readReports := [];
    }

    /**
     * `Install`: resolves the connection string (app setting, then named connection
     * string, then the literal setting), parses it, fixes the endpoint, creates the client
     * and subscribes the post-rewrite handler. `getSetting`, `connectionStrings`, `tryParse`
     * and `createClient` stand for the configuration managers and the Azure SDK.
     */
    method Install(c: Pipeline, getSetting: string -> Option<string>,
                   connectionStrings: string -> Option<string>,
                   tryParse: string -> Option<StorageAccount>,
                   createClient: StorageAccount -> CloudBlobClient)
      returns (r: Result<AzureReaderPlugin, Exception>)
      modifies this, c
      ensures IsNullOrEmpty(old(blobStorageConnection)) ==>
                r == Err(InvalidOperationException(MISSING_CONNECTION_MESSAGE)) && unchanged(this, c)
      ensures !IsNullOrEmpty(old(blobStorageConnection)) ==>
                var name := old(blobStorageConnection).value;
                var connectionString := FirstNonEmpty([getSetting(name), connectionStrings(name), Some(name)]);
                && connectionString.Some?
                && (tryParse(connectionString.value).None? ==>
                      r == Err(InvalidOperationException(INVALID_CONNECTION_MESSAGE)) && unchanged(this, c))
                && (tryParse(connectionString.value).Some? ==>
                      var account := tryParse(connectionString.value).value;
                      && r == Ok(this)
                      && blobStorageEndpoint == Some(NormalizedEndpoint(old(blobStorageEndpoint), account.blobEndpoint))
                      && cloudBlobClient == Some(createClient(account))
                      && c.postRewrite == old(c.postRewrite) + [this])
      ensures virtualFilesystemPrefix == old(virtualFilesystemPrefix)
      ensures blobStorageConnection == old(blobStorageConnection)
      ensures redirectToBlobIfUnmodified == old(redirectToBlobIfUnmodified)
      ensures readReports == old(readReports)
    {
      if IsNullOrEmpty(blobStorageConnection) {
        return Err(InvalidOperationException(MISSING_CONNECTION_MESSAGE));
      }
      var name := blobStorageConnection.value;
      // for compatibility, the app setting is looked up first
      var connectionString := getSetting(name);
      if IsNullOrEmpty(connectionString) {
        connectionString := connectionStrings(name);
      }
      if IsNullOrEmpty(connectionString) {
        connectionString := Some(name);
      }
      ConnectionStringNeverEmpty(name, getSetting(name), connectionStrings(name));
      assert connectionString == FirstNonEmpty([getSetting(name), connectionStrings(name), Some(name)]);
      var account := tryParse(connectionString.value);
      if account.None? {
        return Err(InvalidOperationException(INVALID_CONNECTION_MESSAGE));
      }
      if IsNullOrEmpty(blobStorageEndpoint) {
        blobStorageEndpoint := Some(account.value.blobEndpoint);
      }
      if !EndsWithSlash(blobStorageEndpoint.value) {
        blobStorageEndpoint := Some(blobStorageEndpoint.value + "/");
      }
      assert blobStorageEndpoint == Some(NormalizedEndpoint(old(blobStorageEndpoint), account.value.blobEndpoint));
      cloudBlobClient := Some(createClient(account.value));
      c.postRewrite := c.postRewrite + [this];
      r := Ok(this);
    }

    /** `Uninstall`: unsubscribes the post-rewrite handler. */
    method Uninstall(c: Pipeline)
      modifies c
      ensures c.postRewrite == RemoveLast(old(c.postRewrite), this)
    {
      c.postRewrite := RemoveLast(c.postRewrite, this);
    }

    /**
     * `FetchMetadataAsync`. `stripPrefix` is the base class's `StripPrefix` and
     * `getBlobReferenceFromServer` the SDK lookup of a blob by URL.
     */
    method FetchMetadata(virtualPath: string, stripPrefix: string -> string,
                         getBlobReferenceFromServer: string -> StorageResponse<CloudBlob>)
      returns (r: Result<BlobMetadata, Exception>)
      requires cloudBlobClient.Some?
      ensures r == MetadataFrom(getBlobReferenceFromServer(BlobUrl(cloudBlobClient.value.baseUri, stripPrefix(virtualPath))))
    {
      var lookup := getBlobReferenceFromServer(BlobUrl(cloudBlobClient.value.baseUri, stripPrefix(virtualPath)));
      if lookup.Failed? {
        if lookup.httpStatusCode == NOT_FOUND_STATUS {
          return Ok(BlobMetadata(false, None));
        }
        return Err(StorageException(lookup.httpStatusCode));
      }
      var meta := BlobMetadata(true, None);
      var utc := lookup.value.lastModified;
      if utc != None {
        meta := meta.(lastModifiedDateUtc := Some(utc.value.UtcTicks()));
      }
      r := Ok(meta);
    }

    /**
     * `OpenAsync`: downloads the blob into a fresh memory stream, rewinds it and reports the
     * read once. `elapsedTicks` is what the stopwatch measured.
     */
    method Open(virtualPath: string, stripPrefix: string -> string,
                getBlobReferenceFromServer: string -> StorageResponse<CloudBlob>,
                downloadToStream: CloudBlob -> StorageResponse<seq<byte>>,
                elapsedTicks: int)
      returns (r: Result<MemoryStream, Exception>)
      requires cloudBlobClient.Some?
      modifies this`readReports
      ensures var expected := OpenOutcome(getBlobReferenceFromServer(BlobUrl(cloudBlobClient.value.baseUri, stripPrefix(virtualPath))),
                                          downloadToStream);
              && (r.Ok? <==> expected.Ok?)
              && (r.Err? ==> r.error == expected.error)
              && (r.Ok? ==> r.value.buffer == expected.value)
      ensures r.Err? ==> readReports == old(readReports)
      ensures r.Ok? ==> && fresh(r.value) && r.value.Valid() && r.value.position == 0
                        && readReports == old(readReports) + [ReadReport(elapsedTicks, |r.value.buffer|)]
    {
      var lookup := getBlobReferenceFromServer(BlobUrl(cloudBlobClient.value.baseUri, stripPrefix(virtualPath)));
      r := Download(lookup, downloadToStream, elapsedTicks);
      assert cloudBlobClient == old(cloudBlobClient);
    }

    /** The part of `OpenAsync` after the blob lookup: the download, the rewind and the report. */
    method Download(lookup: StorageResponse<CloudBlob>,
                    downloadToStream: CloudBlob -> StorageResponse<seq<byte>>,
                    elapsedTicks: int)
      returns (r: Result<MemoryStream, Exception>)
      modifies this`readReports
      ensures var expected := OpenOutcome(lookup, downloadToStream);
              && (r.Ok? <==> expected.Ok?)
              && (r.Err? ==> r.error == expected.error)
              && (r.Ok? ==> r.value.buffer == expected.value)
      ensures r.Err? ==> readReports == old(readReports)
      ensures r.Ok? ==> && fresh(r.value) && r.value.Valid() && r.value.position == 0
                        && readReports == old(readReports) + [ReadReport(elapsedTicks, |r.value.buffer|)]
    {
      var ms := new MemoryStream();
      if lookup.Failed? {
        return Err(OpenFailure(lookup.httpStatusCode));
      }
      var download := downloadToStream(lookup.value);
      if download.Failed? {
        return Err(OpenFailure(download.httpStatusCode));
      }
      ms.Write(download.value);
      assert ms.buffer == download.value by {
        assert ms.buffer == [] + download.value + [];
      }
      ms.Rewind();
      readReports := readReports + [ReadReport(elapsedTicks, |ms.buffer|)];
      r := Ok(ms);
    }

    /**
     * `Pipeline_PostRewrite`: redirects a request for the blob itself straight to the storage
     * endpoint, without checking that the blob exists. `belongs` and `hasPipelineDirective`
     * are the base class's and the pipeline's tests; `Ok(Some(url))` is the redirect.
     */
    method PostRewrite(virtualPath: string, queryString: NameValueCollection,
                       belongs: string -> bool, hasPipelineDirective: NameValueCollection -> bool)
      returns (r: Result<Option<string>, Exception>)
      ensures r == RedirectDecision(redirectToBlobIfUnmodified, belongs(virtualPath),
                                    hasPipelineDirective(queryString), virtualFilesystemPrefix,
                                    virtualPath, blobStorageEndpoint)
    {
      var prefix := virtualFilesystemPrefix;
      r := Ok(None);
      if redirectToBlobIfUnmodified && belongs(virtualPath) && !hasPipelineDirective(queryString) {
        if |virtualPath| < |prefix| {
          return Err(ArgumentOutOfRangeException);
        }
        var relativeBlobUrl := TrimStart(virtualPath[|prefix|..]);
        r := Ok(Some(OrEmpty(blobStorageEndpoint) + relativeBlobUrl));
      }
    }
  }
}
