# AzureReader2 plugin model

A Dafny model of `AzureReader2Plugin`. This ImageResizer plugin is a virtual-file
provider that serves Azure Blob Storage blobs under a virtual path prefix (`~/azure` by
default). The model covers:

- how the plugin is configured (the constructors);
- how `Install` resolves the connection string and the public endpoint, and subscribes the
  post-rewrite handler;
- how a virtual path becomes the blob URL asked of the storage server (`GetBlobRefAsync`);
- how storage errors are translated for metadata queries (`FetchMetadataAsync`) and for
  downloads (`OpenAsync`);
- when the post-rewrite handler redirects a request straight to blob storage
  (`Pipeline_PostRewrite`), and where it sends it.

Files:

- `wrappers.dfy`: `Option` (a C# `null` is `None`) and `Result` (an exception is `Err`).
- `separators.dfy`: `TrimStart`, `TrimEnd` and `Trim` with the characters `'/'` and `'\\'`.
  `TrimStart` and `TrimEnd` have contracts that pin down their results (`TrimStartUnique`, `TrimEndUnique`); `Trim` is described by lemmas, including ones about padding and idempotence.
- `azure_reader.dfy`: the plugin.
  - The pure decisions are functions: blob URL, connection fallback, endpoint normalisation,
    status translation and the redirect decision. Each has its properties proved.
  - The state changes are in classes. `AzureReaderPlugin` has the plugin's fields, and its
    constructors, `Install`, `Uninstall` and the request methods are proved against those
    functions. `MemoryStream` has a buffer and a position. `Pipeline` holds the subscribers of
    the `PostRewrite` event.

The code calls the Azure SDK, the configuration managers and the base class
`BlobProviderBase`. None of those is part of this model, so each call becomes a parameter: a total
function or an optional value that stands for whatever the call returned.

- `getBlobReferenceFromServer` and `downloadToStream` each give either a value or a storage
  failure carrying its HTTP status.
- `tryParse` gives an optional account.
- `createClient` gives the client built from an account.
- `getSetting` and `connectionStrings` give an optional string.
- `stripPrefix`, `belongs` and `hasPipelineDirective` are the base class's and the pipeline's
  own tests.
- `elapsedTicks` is the stopwatch reading.

Three behaviours of the code that the model keeps:

- The connection-string fallback has three steps: app setting, then named connection
  string, then the literal setting.
- The redirect target removes `prefix.Length` characters and trims only leading
  separators, so trailing separators are kept (`RedirectKeepsTrailingSeparators`), unlike
  the blob URL.
- The parameterless constructor leaves the redirect flag false; the configuration
  constructor defaults it to true.

## Model

| member | source | states |
|---|---|---|
| `Separators.TrimStart` | Plugins/AzureReader2/AzureReader.cs:171 | the result is a suffix of the input; only separators were dropped, and it does not start with one |
| `Separators.TrimEnd` | Plugins/AzureReader2/AzureReader.cs:52 | the result is a prefix of the input; only separators were dropped, and it does not end with one |
| `Separators.Trim` | Plugins/AzureReader2/AzureReader.cs:50 | the result neither starts nor ends with a separator |
| `Separators.TrimIsSlice` | Plugins/AzureReader2/AzureReader.cs:50 | what `Trim` keeps is one contiguous piece of the path, with only separators before and after it |
| `Separators.SliceOfSuffixPrefix` | Plugins/AzureReader2/AzureReader.cs:50 | a prefix that drops only trailing separators, of a suffix that drops only leading separators, is one slice of the string with only separators around it |
| `Separators.TrimStartUnique` | Plugins/AzureReader2/AzureReader.cs:171 | any suffix that drops only separators and does not start with one is the result of `TrimStart`, so the contract determines the result |
| `Separators.TrimEndUnique` | Plugins/AzureReader2/AzureReader.cs:52 | any prefix that drops only separators and does not end with one is the result of `TrimEnd`, so the contract determines the result |
| `Separators.TrimStartSkipsPadding` | Plugins/AzureReader2/AzureReader.cs:171 | separators placed in front of a path do not change what `TrimStart` gives |
| `Separators.TrimEndSkipsPadding` | Plugins/AzureReader2/AzureReader.cs:52 | separators placed after a path do not change what `TrimEnd` gives |
| `Separators.TrimStartKeepsTail` | Plugins/AzureReader2/AzureReader.cs:171 | once the path holds a non-separator, everything appended after it is kept by `TrimStart` |
| `Separators.TrimIgnoresPadding` | Plugins/AzureReader2/AzureReader.cs:50 | any mixture of separators on either side of a path does not change what `Trim` gives |
| `Separators.AllSeparatorsTrimToNothing` | Plugins/AzureReader2/AzureReader.cs:50 | a path made only of separators, with more separators appended, is trimmed to nothing |
| `Separators.TrimIdempotent` | Plugins/AzureReader2/AzureReader.cs:50 | trimming a trimmed path changes nothing |
| `Separators.NoTrailingSeparator` | Plugins/AzureReader2/AzureReader.cs:52 | a path that does not end in a separator is left unchanged by `TrimEnd` |
| `Separators.NoOuterSeparators` | Plugins/AzureReader2/AzureReader.cs:50 | a path with no separator at either end is left unchanged by all three trims |
| `Separators.TrimEmptyOnlyIfAllSeparators` | Plugins/AzureReader2/AzureReader.cs:50 | `Trim` gives the empty string exactly when the path is made of separators only |
| `AzureReader.BlobUrl` | Plugins/AzureReader2/AzureReader.cs:50-52 | the blob URL asked of the server; its contract is given by `BlobUrlJoin`: base URI minus trailing separators, one '/', sub-path minus outer separators |
| `AzureReader.BlobUrlJoin` | Plugins/AzureReader2/AzureReader.cs:50-52 | the blob URL is the base URI minus only its trailing separators, one '/', and the sub-path minus only its outer separators; neither neighbour of the joining '/' is a separator |
| `AzureReader.SlashJoin` | Plugins/AzureReader2/AzureReader.cs:52 | joining two pieces with one '/' puts that '/' right after the left piece, with the pieces intact on either side |
| `AzureReader.BlobUrlIgnoresPadding` | Plugins/AzureReader2/AzureReader.cs:50-52 | extra separators at the end of the base URI or at either end of the sub-path resolve to the same blob URL |
| `AzureReader.BlobUrlStable` | Plugins/AzureReader2/AzureReader.cs:50-52 | resolving from an already trimmed base and sub-path gives the same URL |
| `AzureReader.BlobUrlEndsClean` | Plugins/AzureReader2/AzureReader.cs:50-52 | a blob URL for a sub-path that is not only separators never ends in a separator |
| `AzureReader.BlobUrlOfCleanParts` | Plugins/AzureReader2/AzureReader.cs:50-52 | a base URI with one trailing '/' and a sub-path with one leading '/' resolve to the base, one '/' and the sub-path, with no doubled separator |
| `AzureReader.IsNullOrEmpty` | Plugins/AzureReader2/AzureReader.cs:113-129 | `string.IsNullOrEmpty`: true exactly for null and for the empty string |
| `AzureReader.EndsWithSlash` | Plugins/AzureReader2/AzureReader.cs:135 | `EndsWith("/")`: the string is non-empty and its last character is '/' |
| `AzureReader.Lookup` | Plugins/AzureReader2/AzureReader.cs:41 | `args[key]`: the value stored under the key, or null when the key is absent |
| `AzureReader.FirstNonEmpty` | Plugins/AzureReader2/AzureReader.cs:117-124 | the result is none exactly when every candidate is null or empty; otherwise it is a non-empty candidate and every earlier candidate is null or empty |
| `AzureReader.ConnectionStringNeverEmpty` | Plugins/AzureReader2/AzureReader.cs:113-124 | with a non-empty setting name, the app setting / named connection string / literal chain always yields a non-empty connection string |
| `AzureReader.NormalizedEndpoint` | Plugins/AzureReader2/AzureReader.cs:129-136 | the endpoint ends with '/'; it is the configured endpoint if that is neither null nor empty, otherwise the account's blob endpoint, extended by at most one character; it is unchanged when it already ends with '/' |
| `AzureReader.NormalizedEndpointIdempotent` | Plugins/AzureReader2/AzureReader.cs:129-136 | running the endpoint step again over its own result keeps that result, whatever account is parsed |
| `AzureReader.DateTimeOffset.UtcTicks` | Plugins/AzureReader2/AzureReader.cs:68 | `UtcDateTime`: the local clock reading minus the offset from UTC |
| `AzureReader.MetadataFrom` | Plugins/AzureReader2/AzureReader.cs:63-81 | a 404 gives `Exists = false` with no timestamp; any other storage failure is rethrown with its status; success gives `Exists = true` with the UTC last-modified time exactly when the blob reports one |
| `AzureReader.OpenFailure` | Plugins/AzureReader2/AzureReader.cs:96-103 | a 404 becomes a file-not-found exception with the fixed message, wrapping the storage exception; every other status is the storage exception unchanged |
| `AzureReader.OpenOutcome` | Plugins/AzureReader2/AzureReader.cs:91-104 | an open succeeds exactly when both the lookup and the download succeed, and then gives the downloaded bytes; a failure of either is translated by `OpenFailure` |
| `AzureReader.MetadataAgreesWithOpen` | Plugins/AzureReader2/AzureReader.cs:56-104 | a blob reported missing fails to open with file-not-found; a non-404 lookup failure reaches both callers as the same exception; a blob that opens is reported as existing |
| `AzureReader.OrEmpty` | Plugins/AzureReader2/AzureReader.cs:175 | a null endpoint contributes nothing to the concatenation that builds the redirect URL |
| `AzureReader.RedirectDecision` | Plugins/AzureReader2/AzureReader.cs:164-177 | there is a redirect or an exception exactly when the flag is set, the path belongs and the query has no pipeline directive; the exception (path shorter than the prefix) is the argument-out-of-range one; the target is the endpoint followed by the path after `prefix.Length` characters with only its leading separators removed |
| `AzureReader.RedirectMatchesBlobUrl` | Plugins/AzureReader2/AzureReader.cs:168-175 | when the endpoint is the client base URI with one '/', the prefix is what is stripped, and the rest of the path has no trailing separator, the redirect goes to the same URL the blob would be fetched from |
| `AzureReader.RedirectKeepsTrailingSeparators` | Plugins/AzureReader2/AzureReader.cs:171 | when the rest of the path after the prefix ends in a separator but is not made of separators only, the redirect URL ends in a separator, while its blob URL does not |
| `AzureReader.RedirectTargetEndsAsPath` | Plugins/AzureReader2/AzureReader.cs:171 | when the rest of the path is not only separators, the redirect target ends with the path's last character |
| `AzureReader.RedirectOfCleanPath` | Plugins/AzureReader2/AzureReader.cs:168-175 | with the flag set and a plain query, a request for the prefix, '/' and a path redirects to the endpoint followed by that path; with a processing directive there is no redirect |
| `AzureReader.RemoveLast` | Plugins/AzureReader2/AzureReader.cs:153 | removing an absent handler changes nothing; otherwise exactly its last occurrence is removed |
| `AzureReader.RemoveLastBeforeOther` | Plugins/AzureReader2/AzureReader.cs:153 | removing a handler's last occurrence is unaffected by appending a different handler after it |
| `AzureReader.RemoveLastCount` | Plugins/AzureReader2/AzureReader.cs:153 | unsubscribing takes away exactly one subscription of the handler, if there is one |
| `AzureReader.SubscribeThenUnsubscribe` | Plugins/AzureReader2/AzureReader.cs:140-153 | subscribing and then unsubscribing restores the subscriber list |
| `AzureReader.Pipeline.constructor` | Plugins/AzureReader2/AzureReader.cs:140-153 | a pipeline starts with no `PostRewrite` subscribers |
| `AzureReader.MemoryStream.constructor` | Plugins/AzureReader2/AzureReader.cs:88 | a new stream is empty, at position 0 |
| `AzureReader.MemoryStream.Write` | Plugins/AzureReader2/AzureReader.cs:94 | the bytes are written at the position, overwriting and then extending the buffer, and the position moves past them |
| `AzureReader.MemoryStream.Rewind` | Plugins/AzureReader2/AzureReader.cs:106 | the position returns to 0 and the contents are unchanged |
| `AzureReader.AzureReaderPlugin.constructor` | Plugins/AzureReader2/AzureReader.cs:33-37 | the prefix is `~/azure`; connection and endpoint are null; the redirect flag is false |
| `AzureReader.AzureReaderPlugin.FromArgs` | Plugins/AzureReader2/AzureReader.cs:39-44 | the connection is `connectionstring`; the endpoint is `blobstorageendpoint`, else `endpoint`, else null; the redirect flag is the parsed setting, defaulting to true; the prefix is `~/azure` unless the base configuration set one |
| `AzureReader.AzureReaderPlugin.Install` | Plugins/AzureReader2/AzureReader.cs:112-145 | a null or empty setting name, or an unparsable connection string, throws with the fixed message and changes nothing; otherwise the connection string is `FirstNonEmpty` of the chain, the endpoint becomes `NormalizedEndpoint`, the client is created from the parsed account, the handler is subscribed once, and `Install` returns the plugin |
| `AzureReader.AzureReaderPlugin.Uninstall` | Plugins/AzureReader2/AzureReader.cs:151-155 | the handler's last subscription is removed (a no-op if there is none) |
| `AzureReader.AzureReaderPlugin.FetchMetadata` | Plugins/AzureReader2/AzureReader.cs:48-83 | the result is `MetadataFrom` of the server lookup of the resolved blob URL |
| `AzureReader.AzureReaderPlugin.Open` | Plugins/AzureReader2/AzureReader.cs:85-110 | it fails exactly as `OpenOutcome` does, with no read reported; on success it returns a fresh stream that holds the downloaded bytes at position 0, and exactly one read report is appended, carrying the stream length |
| `AzureReader.AzureReaderPlugin.Download` | Plugins/AzureReader2/AzureReader.cs:94-109 | after the lookup, the outcome is `OpenOutcome`; a success returns a fresh rewound stream holding the downloaded bytes and appends one read report with its length; a failure reports nothing |
| `AzureReader.AzureReaderPlugin.PostRewrite` | Plugins/AzureReader2/AzureReader.cs:164-177 | the result is `RedirectDecision` over the plugin's flag, prefix and endpoint, and depends on no blob lookup |

## Left out

- Azure SDK calls (`GetBlobReferenceFromServerAsync`, `DownloadToStreamAsync`, `CloudStorageAccount.TryParse`, `CreateCloudBlobClient`) are parameters. So are the `CloudConfigurationManager` and `ConfigurationManager` lookups: they are foreign code. Only `StorageException` failures are modelled; any other exception they throw is not.
- `new Uri(...)` parsing of the blob URL is not modelled, and neither is the `UriFormatException` it can throw. The client's `BaseUri.OriginalString` and the account's `BlobEndpoint.ToString()` are taken as plain strings.
- `BlobProviderBase` is not part of this model. Its `StripPrefix`, `Belongs`, `LoadConfiguration`, `ReportReadTicks`, `Install` and `Uninstall` are parameters or left out. So is the pipeline's `HasPipelineDirective`.
  - `LoadConfiguration` is reduced to the prefix it may assign.
  - `ReportReadTicks` is reduced to a log of its calls.
  - The boolean that `Uninstall` returns from the base class is not modelled.
  - Plugin registration by `base.Install` is not modelled.
- The `VirtualFilesystemPrefix` property setter lives in the base class, which is not part of this model. The prefix is stored exactly as assigned.
- `NameValueCollection` lookups are case-insensitive in .NET. Here keys match exactly. A key added more than once reads in .NET as its values joined by commas; the model's map holds one value per key.
- `GetAsString` is modelled as "the value, or the default when the key is absent". How `Get<bool>` parses a value is a parameter.
- `EndsWith("/")` is modelled as an ordinal test of the last character, without culture-sensitive comparison. Strings are sequences of Dafny characters, with no UTF-16 detail.
- `async`/`Task` plumbing and cancellation are left out: they are concurrency. The `Stopwatch` is a parameter (`elapsedTicks`): it is wall-clock time.
- The `MemoryStream` starting capacity of 4096 bytes and its growth policy are left out: they do not change what the stream holds. Bytes written before a failed download are also left out, because the stream is discarded with the exception.
- `Response.Redirect` is modelled as the URL the handler returns. What the response does after the redirect is web-host behaviour.
- Event wiring is modelled as a list of subscriber objects on `Pipeline`: the plugin object stands for its `Pipeline_PostRewrite` delegate.
- `AzureReader.AzureReaderPlugin.FetchMetadata`: requires an installed client. The source would throw a null-reference exception when called before `Install`, and the pipeline never does that.
- `AzureReader.AzureReaderPlugin.Open`: requires an installed client, for the same reason.
- `DateTimeOffset.UtcDateTime` is modelled as clock ticks minus offset ticks. `DateTime.Kind` is not modelled.
