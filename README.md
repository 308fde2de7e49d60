# go-emby2alist core, modelled in Dafny

This project models three pieces of the go-emby2alist proxy, which sits between Emby clients and an
Emby server whose media live on Alist storage:

- **The HLS playlist engine** of `internal/service/m3u8/info.go` (module `M3u8`, file `m3u8_info.dfy`).
  - `NewByContent` is a scanner loop that files every trimmed line of an RFC 8216 playlist. A head or tail
    directive goes to its bucket, a directive attached to the next segment waits, and a segment URI is made
    relative to the base.
  - `ContentFunc`, `Content`, `MasterFunc` and `ProxyContent` re-serialise a parsed playlist with builder loops.
  - `GetTsLink` indexes segments with a bounds check.
  - `NewByRemote` derives the base URL.
  - `UpdateContent` replaces the playlist fields together and consumes the one-shot `Remote` address.
  - The class `Info` holds the same fields as the Go struct. The parser is specified by a fold `Run` of one
    step per line, and each method is proved against that fold or against the list of lines it writes.
- **The PlaybackInfo media-source handling** of `internal/service/emby/playbackinfo.go` (module `PlaybackInfo`,
  file `playbackinfo.dfy`). A media source is a record and the `MediaSources` array is a Dafny `array` rewritten
  in place.
  - The per-source rewrite loop of `TransferPlaybackInfo` stops at the first remote source, and the preview
    results are collected in task order.
  - `useCacheSpacePlaybackInfo` is the method `Space.UseCache` on a class whose field is the cache space (a map
    from item id to cached response). Its closures `updateCache` and `findMediaSourceAndReturn` are
    `Space.UpdateCache` and `Space.FindAndReturn`. Each method is proved equal to a specification function
    (`Reordered`, `Find`, `Reuse`), and the lemmas state what those functions promise.
  - The gating of `LoadCacheItems` is a function, written as the code has it, next to a corrected version.
- **The Emby configuration** of `internal/config/emby.go` (module `Config`, file `emby_config.dfy`).
  - `Emby.Init` validates and defaults the fields.
  - `Strm.Init` parses the `from => to` mapping lines into a map.
  - `Strm.MapPath` applies at most one substitution.

Two support modules model the parts of Go's standard library the core relies on:

- `Strs` (`strs.dfy`): `strings.TrimSpace` with the `unicode.IsSpace` set, `Index`, `Contains`, `Replace(…, 1)`,
  `Split`, `TrimSuffix`, and the line splitting of `bufio.Scanner`.
- `Urls` (`urls.dfy`): UTF-8 encoding, `url.QueryEscape` / `url.QueryUnescape` on bytes, `strconv.Itoa` /
  `strconv.Atoi` with the int64 range, and `url.Values.Encode`.

`Wrappers` (`wrappers.dfy`) holds `Option` and `Result`.

Everything the core reaches outside these files is a parameter of the model. That covers the network, the clock,
JSON decoding and encoding, `strs.AnyEmpty`, `findMediaSourceName`, `ContainerValid`, `findVideoPreviewInfos`,
and the tag sets `ParentHeadComments`, `ParentTailComments` and `ValidM3U8Contents`.

When the rewrite loop meets a remote source, the handler answers with the document as it is at that moment,
not with the document the server sent. The sources before the remote one already carry their rewrites, and the
remote one already has its id restored. `PlaybackInfo.EarlierSourcesRewritten` states this.

## Model

| member | source | states |
|---|---|---|
| Strs.TrimSpaceBounds | internal/service/m3u8/info.go:32 | the trimmed line is a contiguous piece of the line, and everything cut from either end is Unicode white space |
| Strs.TrimSpaceBlank | internal/service/m3u8/info.go:32-34 | a line trims to the empty string exactly when it consists of white space only, so those are the lines skipped |
| Strs.TrimSpaceIdempotent | internal/config/emby.go:97 | trimming a trimmed value changes nothing |
| Strs.Split | internal/config/emby.go:93 | the pieces joined with the separator give back the input, and no piece contains the separator |
| Strs.SplitJoin | internal/config/emby.go:93 | splitting pieces joined by a separator gives back the pieces, provided no piece contains the separator and no proper suffix of the separator is also its prefix (true of `=>` and of a newline) |
| Strs.ReplaceFirst | internal/config/emby.go:108 | only the first occurrence of the key is replaced; without an occurrence the path is unchanged |
| Strs.TrimSuffix | internal/service/m3u8/info.go:162 | exactly one trailing suffix is removed when present, otherwise the text is unchanged |
| Strs.Lines | internal/service/m3u8/info.go:28-30 | the lines joined with newlines give back the text |
| Urls.UnescapeEscape | internal/service/emby/playbackinfo.go:180 | query-unescaping inverts query-escaping for every byte string |
| Urls.Atoi | internal/service/emby/playbackinfo.go:209 | a parsed index lies in the int64 range, and an empty or sign-only value does not parse |
| Urls.AtoiItoa | internal/service/emby/playbackinfo.go:247 | every int64 value printed in decimal parses back to itself |
| Urls.RelativeUrl | internal/service/m3u8/info.go:122-128 | a proxy address is the path, `?` and the encoded query, and the query uses only query-safe characters |
| M3u8.TagOfSplit | internal/service/m3u8/info.go:51 | the tag of a directive is the first piece `strings.Split` cuts at `:` |
| M3u8.TrimSlashes | internal/service/m3u8/info.go:40-42 | the stored address is a suffix without a leading `/`, and only `/` characters were removed |
| M3u8.SegmentUrlOfResolved | internal/service/m3u8/info.go:38-43 | a segment address written as base plus a relative address is stored as that relative address |
| M3u8.StepCases | internal/service/m3u8/info.go:31-60 | one scanned line: blank lines change nothing; a segment line takes the waiting directives and resets them; head, tail and other directives go to their bucket, head vocabulary first |
| M3u8.ParseAccounts | internal/service/m3u8/info.go:30-61 | the head and tail buckets are the head and tail directives in input order; there is one segment per segment line, in order, with its address made relative; the attached directives, segment by segment and then those dropped at the end, are the attached directives in order |
| M3u8.ParsedDirectives | internal/service/m3u8/info.go:44-61 | every line the parser keeps in a bucket or attaches to a segment is a directive |
| M3u8.NewByContent | internal/service/m3u8/info.go:24-68 | the new Info holds exactly the parse of the content against the base, with no subtitles, path, template or remote |
| M3u8.StripBase | internal/service/m3u8/info.go:38-43 | the prefix-removal loop stores the segment address the parser specifies |
| M3u8.Info.GetTsLink | internal/service/m3u8/info.go:105-111 | no link exactly when the index is negative or past the last segment; otherwise the base followed by that segment's address |
| M3u8.Info.TsLinkInContent | internal/service/m3u8/info.go:105-111 | the link of segment k is the line that follows segment k's directives in the rendered playlist |
| M3u8.WriteLines | internal/service/m3u8/info.go:145-147 | the builder loop appends each line followed by a newline |
| M3u8.Info.ContentFunc | internal/service/m3u8/info.go:141-165 | the output is the head directives, then each segment's directives and its mapped address, then the tail directives, joined by newlines with no trailing newline |
| M3u8.RenderJoin | internal/service/m3u8/info.go:162 | dropping the one trailing newline of newline-terminated lines gives the lines joined by newlines |
| M3u8.SegLineAt | internal/service/m3u8/info.go:150-155 | the line for segment k is the mapper applied to index k and that segment's address |
| M3u8.SegLinesLength | internal/service/m3u8/info.go:150-155 | the segment part has one line per attached directive plus one per segment |
| M3u8.SegmentOnlyLines | internal/service/m3u8/info.go:141-165 | the rendered lines that are not directives are exactly the mapped segment addresses, in segment order |
| M3u8.Info.Content | internal/service/m3u8/info.go:195-199 | the playlist with absolute segment links; parsing it again against the same base gives back the same buckets and segments when every kept head, tail and attached line is trimmed, free of newlines and classified as the same kind again, every absolute segment line is too, and no stored segment address starts with `/` |
| M3u8.ContentReparses | internal/service/m3u8/info.go:24-68 | rendering with absolute links and parsing again gives back the head, tail and segments when every kept head, tail and attached line is trimmed, free of newlines and classified as the same kind again, every absolute segment line is too, and no stored segment address starts with `/` |
| M3u8.LeadingSlashNotReparsed | internal/service/m3u8/info.go:38-43 | the condition is needed: for any base that starts with neither `/`, `#` nor white space (such as `http://h/a/`) and any non-empty url that neither starts with `/` nor ends in white space, the line `/` + url is stored as it is, rendered as base + `/` + url, and that line is stored as url, a different address |
| M3u8.WriteMedia | internal/service/m3u8/info.go:121-131 | the subtitle loop writes one `#EXT-X-MEDIA` line per subtitle, in order |
| M3u8.Info.MasterFunc | internal/service/m3u8/info.go:116-135 | the variant playlist is the master lines, each ending in a newline, followed by the mapper's text |
| M3u8.MasterLayout | internal/service/m3u8/info.go:116-135 | the master lines are `#EXTM3U`, `#EXT-X-VERSION:3`, exactly one `#EXT-X-MEDIA` line per subtitle in order, and exactly one `#EXT-X-STREAM-INF` line, which comes last |
| M3u8.MasterReads | internal/service/m3u8/info.go:116-135 | read back line by line, the variant playlist is the master lines followed by the main playlist address |
| M3u8.Info.ProxyContent | internal/service/m3u8/info.go:168-192 | the variant playlist pointing at the main proxy playlist when it is not the main request and there are subtitles, the proxy segment playlist otherwise |
| M3u8.ProxyTsLines | internal/service/m3u8/info.go:182-191 | the proxy playlist has one non-directive line per segment, and line k is the `proxy_ts` address carrying index k |
| M3u8.ParsedProxyLines | internal/service/m3u8/info.go:182-191 | for any parsed playlist, the proxy form has exactly one `proxy_ts` line per segment, carrying that segment's index |
| M3u8.QueryPos | internal/service/m3u8/info.go:73-76 | the position of the first `?`, or the length when there is none |
| M3u8.BaseUrl | internal/service/m3u8/info.go:77-81 | no base exactly when there is no `/` before the query; otherwise the prefix up to and including the last `/` before the query |
| M3u8.BaseUrlIdempotent | internal/service/m3u8/info.go:77-81 | the base of a base is itself |
| M3u8.NewByRemote | internal/service/m3u8/info.go:71-102 | fails exactly when the remote load fails (no `/` before the query, a failed fetch, a content type outside the accepted set, or a failed body read), with that error; otherwise a fresh Info holding the parse of the body against the base |
| M3u8.Info.UpdateContent | internal/service/m3u8/info.go:204-248 | succeeds exactly when the refresh succeeds; on success base, buckets, segments and subtitles are replaced together and the time stamp is set; on failure those fields are unchanged; the remote address is cleared whenever path and template are set |
| M3u8.RefreshPrefersRemote | internal/service/m3u8/info.go:210-220 | a one-shot remote address that loads is used as it is, and the subtitles are then left empty |
| M3u8.RefreshSubtitlesFromResource | internal/service/m3u8/info.go:222-246 | subtitles are only ever taken from a storage listing with status 200, together with the playlist at that listing's address |
| Config.FirstBad | internal/config/emby.go:92-96 | the index of the first entry that does not split into exactly two pieces at `=>`, or the count |
| Config.EntriesError | internal/config/emby.go:92-96 | the mapping is rejected exactly when some entry does not split into exactly two pieces |
| Config.EntryRoundTrip | internal/config/emby.go:93-97 | `a => b` with no arrow in a or b is accepted and maps the trimmed a to the trimmed b |
| Config.ArrowSplitJoin | internal/config/emby.go:93 | arrow-free pieces joined by `=>` split back into exactly those pieces |
| Config.TwoArrowsRejected | internal/config/emby.go:93-96 | an entry with two arrows is rejected |
| Config.NoArrowRejected | internal/config/emby.go:93-96 | an entry without an arrow is rejected |
| Config.MappingsKeys | internal/config/emby.go:97-98 | the map's keys are exactly the trimmed sources of the entries |
| Config.MappingsLastWins | internal/config/emby.go:98 | for a repeated source the last entry's target wins |
| Config.Strm.Init | internal/config/emby.go:90-101 | the error is that of the first malformed entry, and the map holds the entries before it, later ones overwriting earlier ones |
| Config.Strm.MapPath | internal/config/emby.go:105-111 | the result is the search over the keys in the given iteration order |
| Config.MapViaUnmatched | internal/config/emby.go:105-111 | a path containing no key is returned unchanged |
| Config.MapViaOnce | internal/config/emby.go:105-109 | when some key occurs, the result is the path with the first occurrence of one matching key replaced by its value |
| Config.OnlyMatchDecides | internal/config/emby.go:105-109 | when exactly one key occurs, whatever the iteration order, that key's first occurrence is replaced |
| Config.EmptyStrategyIsOrigin | internal/config/emby.go:53-56 | an empty strategy becomes `origin` |
| Config.StrategyAccepted | internal/config/emby.go:58-61 | a non-empty strategy is accepted exactly when, trimmed, it is `origin` or `reject` |
| Config.QualityRange | internal/config/emby.go:63-69 | a quality is accepted exactly when it lies in 0..100, and the stored value then lies in 1..100 |
| Config.InitAccepted | internal/config/emby.go:43-79 | validation succeeds exactly when host, mount path and API key are non-empty, the strategy is valid, the quality is in 0..100 and every mapping entry is well formed; the stored quality then lies in 1..100 |
| Config.Emby.Init | internal/config/emby.go:43-79 | the error is the first check to fail in order host, mount path, API key, strategy, quality, mapping; the strategy and quality are normalised once their checks are reached; a missing Strm is replaced by a fresh empty one; once the mapping step is reached, the Strm's path map is the mapping built from the entries before the first malformed one |
| Config.Emby.InitStrm | internal/config/emby.go:71-76 | a missing Strm becomes a fresh empty one, whose Init then runs: the error is that of the first malformed entry and the path map is the mapping built from the entries before it; the other fields are unchanged |
| PlaybackInfo.Restored | internal/service/emby/playbackinfo.go:95-99 | with a MediaSourceId, the source id becomes the raw id; remoteness, item and container are kept |
| PlaybackInfo.RewriteMarksDirect | internal/service/emby/playbackinfo.go:109-131 | a local source becomes direct-playable with its `/videos/…/stream` address, loses every transcoding offer and key, and is named `(原画) ` plus the heuristic or original name; id, item, container and stream indices are kept |
| PlaybackInfo.FirstRemote | internal/service/emby/playbackinfo.go:101-107 | the position of the first remote source, with none before it |
| PlaybackInfo.RewriteSources | internal/service/emby/playbackinfo.go:94-146 | the array ends as the rewritten sources; the loop reports a return exactly when there is a remote source; otherwise the preview tasks are those of every source in order |
| PlaybackInfo.CollectPreviews | internal/service/emby/playbackinfo.go:148-155 | the preview results are appended task by task, in the order the tasks started |
| PlaybackInfo.TransferSources | internal/service/emby/playbackinfo.go:94-155 | the array ends as the rewritten sources, and the answered MediaSources are those sources followed, when no source is remote, by the preview results in task order |
| PlaybackInfo.LocalsAt | internal/service/emby/playbackinfo.go:95-131 | position k of the rewritten prefix is source k restored and rewritten |
| PlaybackInfo.EarlierSourcesRewritten | internal/service/emby/playbackinfo.go:94-107 | sources before the first remote one are answered restored and rewritten, and the remote one only restored |
| PlaybackInfo.RemoteStops | internal/service/emby/playbackinfo.go:101-107 | with a remote source, nothing is appended and every later source is answered untouched |
| PlaybackInfo.SpecificIdRestored | internal/service/emby/playbackinfo.go:95-99 | with a MediaSourceId, every visited source, the remote one included, answers with the raw id |
| PlaybackInfo.TaskOf | internal/service/emby/playbackinfo.go:133-140 | each source starts at most one preview task |
| PlaybackInfo.NoTasks | internal/service/emby/playbackinfo.go:133-137 | with a MediaSourceId or previews off, no preview task starts |
| PlaybackInfo.NoPreviewsAppended | internal/service/emby/playbackinfo.go:133-155 | with a MediaSourceId or previews off, the answer is exactly the rewritten sources |
| PlaybackInfo.PreviewsInStartOrder | internal/service/emby/playbackinfo.go:138-155 | the previews of earlier sources come before those of later sources |
| PlaybackInfo.OneSourcePreviews | internal/service/emby/playbackinfo.go:109-155 | a single local source is answered rewritten, followed by its preview results exactly when its task starts |
| PlaybackInfo.Patch | internal/service/emby/playbackinfo.go:209-220 | an index that parsed replaces the default index; one that did not leaves it; id and item are kept |
| PlaybackInfo.PatchKeepsRest | internal/service/emby/playbackinfo.go:209-220 | the patch changes the two default stream indices and nothing else |
| PlaybackInfo.Reordered | internal/service/emby/playbackinfo.go:222-242 | the reordered list has the same length as the original |
| PlaybackInfo.ReorderSources | internal/service/emby/playbackinfo.go:222-241 | the loop builds the patched target followed by every other source in its original order, with the target item's siblings patched |
| PlaybackInfo.ReorderedIds | internal/service/emby/playbackinfo.go:222-241 | the ids are the target's first, then the others in their original order, and they are a permutation of the original ids |
| PlaybackInfo.ReorderedPermutation | internal/service/emby/playbackinfo.go:222-241 | without index overrides the new list is a permutation of the old one |
| PlaybackInfo.ReorderedIndices | internal/service/emby/playbackinfo.go:208-238 | every source of the target's item carries each override that parsed; a source of another item is the original source, untouched |
| PlaybackInfo.Refiled | internal/service/emby/playbackinfo.go:245-248 | the cached body becomes the rendered document, Content-Length becomes its byte length, and status and other headers are kept |
| PlaybackInfo.Space.UpdateCache | internal/service/emby/playbackinfo.go:190-250 | nothing changes unless IsPlayback is exactly `true` and the target exists; otherwise the document gets the reordered sources and that one cache entry is refiled |
| PlaybackInfo.FirstMatch | internal/service/emby/playbackinfo.go:266-274 | the first source whose id unescapes to the requested id; an id that does not unescape never matches |
| PlaybackInfo.FindAt | internal/service/emby/playbackinfo.go:266-284 | when source i is the first match, the answer is that source alone, as updated, with the cached headers less Content-Length, and the entry is updated |
| PlaybackInfo.FindSelectsFirstMatch | internal/service/emby/playbackinfo.go:254-285 | there is an answer exactly when the body decodes, MediaSources is an array and some id matches; the answer holds exactly one, matching, source and no Content-Length; without an answer the entry is unchanged |
| PlaybackInfo.PlaybackStartMovesTargetFirst | internal/service/emby/playbackinfo.go:266-271 | after a playback start the cached list starts with the requested source, and the entry is refiled from the updated document |
| PlaybackInfo.Space.FindAndReturn | internal/service/emby/playbackinfo.go:254-285 | the search loop with its early break gives the specified answer and cache update |
| PlaybackInfo.BadRawIdMisses | internal/service/emby/playbackinfo.go:180-183 | a raw id that does not unescape answers false and changes nothing |
| PlaybackInfo.WholeDocumentFromCache | internal/service/emby/playbackinfo.go:287-308 | without a MediaSourceId a hit answers the cached status, headers and body verbatim, a miss answers false, and the cache is unchanged |
| PlaybackInfo.NoAutoRequestIgnoresRefetch | internal/service/emby/playbackinfo.go:305-313 | without autoRequestAll no request is made, and a false answer writes nothing and changes nothing |
| PlaybackInfo.RetryOnce | internal/service/emby/playbackinfo.go:315-328 | after a miss the procedure makes one self-request and retries once with autoRequestAll false on the refilled cache; a failed request answers true with the error |
| PlaybackInfo.Space.UseCache | internal/service/emby/playbackinfo.go:176-329 | the answer, the response and the new cache space are those of the specified decision procedure, whose recursion depth is at most 2 |
| PlaybackInfo.ItemsTypes | internal/service/emby/playbackinfo.go:42 | the case-insensitive pattern accepts `Movie`, `Episode` and `episode` and rejects `Series` and the empty type |
| PlaybackInfo.Cover | internal/service/emby/playbackinfo.go:369-373 | sources are taken exactly when MediaSources is an array |
| PlaybackInfo.ItemsUntouchedWhenGated | internal/service/emby/playbackinfo.go:348-363 | with previews off, a type the pattern rejects or an unresolved item, the Items response passes untouched |
| PlaybackInfo.ManualFailureSwallowed | internal/service/emby/playbackinfo.go:389-414 | a failed manual request, non-200 status, unreadable or undecodable body leaves the Items response untouched |
| PlaybackInfo.CachedSourcesIgnored | internal/service/emby/playbackinfo.go:383-386 | as written, a cached document that decodes with a MediaSources array is never used; the result is what the manual request gives |
| PlaybackInfo.CachedSourcesPreferred | internal/service/emby/playbackinfo.go:383-386 | with the guard corrected, a cached document that decodes with a MediaSources array supplies the MediaSources |

## Left out

- Network, HTTP and gin plumbing are left out: requests, response writing, header cloning and the cache hint
  headers. Responses are returned values. The fetches in `NewByRemote`, `UpdateContent`, the self-request of
  `useCacheSpacePlaybackInfo` and the manual request of `LoadCacheItems` are parameters giving their outcome.
- `time.Now` in `UpdateContent` is a parameter `now`. Logging and colour helpers are left out.
- JSON is not parsed or printed. The jsons tree is a set of records, and decoding and rendering are parameters.
  Only the attributes the core reads or writes are modelled; the rest of a document is an opaque `rest`.
- The type assertions on `Name`, `Container` and `Id` (playbackinfo.go:124, 135, 267) are assumed to
  succeed. The model has no panic.
- A source's `Id` is taken to be a JSON string, so the `%s` at playbackinfo.go:112-115 prints it as is. A
  non-string `Id`, which Go would print as `%!s(…)` inside the URL, is outside the model.
- Go strings are byte strings; the model's `string` is a sequence of Unicode characters in the string and
  playlist modules. Text that is not valid UTF-8 lies outside the model's domain.
- An entry's `headers` is a map from a name to one value, where Go's `http.Header` holds a list of values per
  name. Multi-valued headers are not modelled.
- The goroutines and channels around `findVideoPreviewInfos` are left out. Its results are a function of the
  task (source and name), consumed in start order, which is the order the channels are read.
- Functions defined outside the three files are parameters: `strs.AnyEmpty`, `findMediaSourceName`,
  `ContainerValid`, `resolveItemInfo`, `QueryApiKeyName` and the configured API key, and the tag sets
  `ParentHeadComments`, `ParentTailComments` and `ValidM3U8Contents`.
- Go's map iteration order in `Strm.MapPath` is a parameter: any order of the keys. Which key wins when
  several occur is therefore not fixed, as in the program. The doc comment at emby.go:103-104 promises
  top-to-bottom order, which a range over a Go map does not keep; the model follows the code.
- `bufio.Scanner` is modelled as a split on `\n`. Its token-size limit, and an error from it, are left out.
- `Content` is not promised to parse back for every playlist the parser produces. A segment line that does not start with the base keeps a leading `/` (`/x.ts` against `http://h/a/`), or is stored as an address that reads as a directive once the base is prepended (`/#x` against an empty base). `ContentReparses` holds only for playlists without such addresses, and `LeadingSlashNotReparsed` exhibits the first case.
- The handler plumbing of `TransferPlaybackInfo` before the loop is left out (playbackinfo.go:46-93). This
  includes the branch at lines 81-83, which reports an error without returning. The model starts from a
  `MediaSources` array.
- The `c == nil` guard of `useCacheSpacePlaybackInfo` (line 177) is left out, because the context is never nil
  in the model.
- `spaceCache.Update(0, …)` is taken to keep the cached status. The cache package is not part of this model.
- `LoadCacheItems` as written splices the MediaSources of whatever document `spaceCache.JsonBody()` returns together with its error. The model takes that document from the `decode` parameter, so it is a free parameter; the cache package is not part of this model.
- The large payload and URL-template constants are left out, and so is concurrent access to the response
  cache.
- The `Subtitles` of a playlist are reduced to their language, the only attribute the core reads.

## Findings

| source | as written | input that shows it | evidently intended | confidence | as-written member | corrected member |
|---|---|---|---|---|---|---|
| internal/service/emby/playbackinfo.go:384 | `err != nil && coverMediaSources(cacheBody)`: the cached PlaybackInfo is used only when decoding it failed | a cache hit whose body decodes to a document with a `MediaSources` array, and a manual request that fails: the Items response keeps its own sources | `err == nil`: use the cached sources when the cached body decodes, as the comments at lines 333-336 and 380 say | high; not executed | PlaybackInfo.CachedSourcesIgnored | PlaybackInfo.CachedSourcesPreferred |
