/**
 * The media-source handling of the PlaybackInfo proxy (internal/service/emby/playbackinfo.go):
 * the per-source rewrite loop of TransferPlaybackInfo with the collection of preview sources,
 * the cache-space reuse procedure (useCacheSpacePlaybackInfo) with its closures updateCache
 * and findMediaSourceAndReturn, and the gating of LoadCacheItems.
 *
 * The JSON tree is modelled by records: a media source is a `MediaSource`, a PlaybackInfo
 * document a `Doc` whose `MediaSources` attribute is a `SourcesAttr`. Decoding and encoding
 * JSON, the naming heuristic, the container allow-list, the preview builder and the HTTP
 * round trips are parameters.
 */
module PlaybackInfo {
  import opened Wrappers
  import Strs
  import Urls

  /** The label put in front of the name of every local source. */
  const OriginalPrefix: string := "(原画) "
  const ContentLength: string := "Content-Length"
  const StatusOK: int := 200

  /**
   * One entry of a document's MediaSources array. An absent JSON key is `None`; `isRemote` is
   * `None` as well when the key holds something other than a boolean. A missing `ItemId` reads
   * as the empty string, as `Attr("ItemId").String()` gives it.
   */
  datatype MediaSource = MediaSource(
    id: string,
    itemId: string,
    isRemote: Option<bool>,
    container: string,
    name: string,
    supportsDirectPlay: Option<bool>,
    supportsDirectStream: Option<bool>,
    supportsTranscoding: Option<bool>,
    directStreamUrl: Option<string>,
    transcodingUrl: Option<string>,
    transcodingSubProtocol: Option<string>,
    transcodingContainer: Option<string>,
    defaultAudioStreamIndex: Option<int>,
    defaultSubtitleStreamIndex: Option<int>)

  /** The `MediaSources` attribute of a document. */
  datatype SourcesAttr = Absent | NotArray | Array(items: seq<MediaSource>)

  /**
   * A PlaybackInfo (or Items) document: its MediaSources, its `Type` attribute (empty when absent)
   * and everything else, which this code carries along without reading it.
   */
  datatype Doc = Doc(mediaSources: SourcesAttr, typeName: string, rest: string)

  /** What a JSON decoder gives back: a document, and whether decoding failed. */
  datatype Decoded = Decoded(doc: Doc, failed: bool)

  /** The source selector: `empty` when the request carried no MediaSourceId. */
  datatype MsInfo = MsInfo(empty: bool, rawId: string)

  /** The resolved item of a request. */
  datatype ItemInfo = ItemInfo(id: string, msInfo: MsInfo)

  /** Settings and collaborators the rewrite loop consults. */
  datatype RewriteEnv = RewriteEnv(
    apiKeyName: string,
    apiKey: string,
    previewEnabled: bool,
    containerValid: string -> bool,
    sourceName: MediaSource -> string)

  /** A started preview task: the source it was started for and that source's plain name. */
  datatype Task = Task(source: MediaSource, name: string)

  // ---------------------------------------------------------------------------------------
  // The rewrite loop of TransferPlaybackInfo
  // ---------------------------------------------------------------------------------------

  /** `Attr("IsRemote").Bool()` succeeded and gave true. */
  predicate IsRemote(ms: MediaSource) {
    ms.isRemote == Some(true)
  }

  /** With a MediaSourceId in the request, the entry's Id is set back to the raw requested id. */
  function Restored(ms: MediaSource, item: ItemInfo): (r: MediaSource)
    ensures r.id == (if item.msInfo.empty then ms.id else item.msInfo.rawId)
    ensures r.isRemote == ms.isRemote && r.itemId == ms.itemId && r.container == ms.container
  {
    if item.msInfo.empty then ms else ms.(id := item.msInfo.rawId)
  }

  /** The direct-stream address of a source with id `id`. */
  function DirectStreamUrl(item: ItemInfo, id: string, env: RewriteEnv): string {
    "/videos/" + item.id + "/stream?MediaSourceId=" + id + "&" + env.apiKeyName + "=" + env.apiKey + "&Static=true"
  }

  /** A source once it is marked direct-playable and carries its direct-stream address. */
  function Direct(ms: MediaSource, item: ItemInfo, env: RewriteEnv): MediaSource {
    ms.(supportsDirectPlay := Some(true), supportsDirectStream := Some(true),
        directStreamUrl := Some(DirectStreamUrl(item, ms.id, env)))
  }

  /** The simplified name: the naming heuristic's answer, or the present name when it has none. */
  function PlainName(ms: MediaSource, item: ItemInfo, env: RewriteEnv): string {
    var heuristic := env.sourceName(Direct(ms, item, env));
    if heuristic != "" then heuristic else ms.name
  }

  /** The rewrite of one local (non-remote) source. */
  function Rewrite(ms: MediaSource, item: ItemInfo, env: RewriteEnv): MediaSource {
    var named := Direct(ms, item, env).(name := PlainName(ms, item, env));
    named.(name := OriginalPrefix + named.name, supportsTranscoding := Some(false),
           transcodingUrl := None, transcodingSubProtocol := None, transcodingContainer := None)
  }

  /**
   * A local source becomes direct-playable with its direct-stream address, loses every transcoding offer,
   * and is labelled as the original; its identity, item, container and stream choices stay.
   */
  lemma RewriteMarksDirect(ms: MediaSource, item: ItemInfo, env: RewriteEnv)
    ensures var r := Rewrite(ms, item, env);
      r.supportsDirectPlay == Some(true) && r.supportsDirectStream == Some(true)
      && r.supportsTranscoding == Some(false)
      && r.transcodingUrl == None && r.transcodingSubProtocol == None && r.transcodingContainer == None
      && r.directStreamUrl == Some(DirectStreamUrl(item, ms.id, env))
      && r.name == OriginalPrefix + PlainName(ms, item, env)
      && r.id == ms.id && r.itemId == ms.itemId && r.isRemote == ms.isRemote && r.container == ms.container
      && r.defaultAudioStreamIndex == ms.defaultAudioStreamIndex
      && r.defaultSubtitleStreamIndex == ms.defaultSubtitleStreamIndex
  {
  }

  /** A preview task is started for a rewritten source. */
  predicate Starts(ms: MediaSource, item: ItemInfo, env: RewriteEnv) {
    item.msInfo.empty && env.previewEnabled && env.containerValid(ms.container)
  }

  /** The index of the first remote source, or `|s|` when there is none. */
  function FirstRemote(s: seq<MediaSource>): (i: nat)
    ensures i <= |s|
    ensures forall k :: 0 <= k < i ==> !IsRemote(s[k])
    ensures i < |s| ==> IsRemote(s[i])
  {
    if s == [] || IsRemote(s[0]) then 0 else 1 + FirstRemote(s[1..])
  }

  /** Every source of `s` restored and rewritten as a local source, in order. */
  function Locals(s: seq<MediaSource>, item: ItemInfo, env: RewriteEnv): (r: seq<MediaSource>)
    ensures |r| == |s|
  {
    if s == [] then [] else Locals(s[..|s| - 1], item, env) + [Rewrite(Restored(s[|s| - 1], item), item, env)]
  }

  /**
   * The sources once the loop has run: every source before the first remote one restored and
   * rewritten, the remote one only restored, the later ones as they were.
   */
  function Rewritten(s: seq<MediaSource>, item: ItemInfo, env: RewriteEnv): (r: seq<MediaSource>)
    ensures |r| == |s|
  {
    var stop := FirstRemote(s);
    if stop == |s| then Locals(s, item, env)
    else Locals(s[..stop], item, env) + [Restored(s[stop], item)] + s[stop + 1..]
  }

  /** `f` applied to each element of `s` in order, the results concatenated. */
  function FlatMap<X, Y>(s: seq<X>, f: X -> seq<Y>): seq<Y> {
    if s == [] then [] else FlatMap(s[..|s| - 1], f) + f(s[|s| - 1])
  }

  /** The preview task the loop starts for local source `ms`, if any. */
  function TaskOf(ms: MediaSource, item: ItemInfo, env: RewriteEnv): (r: seq<Task>)
    ensures |r| <= 1
  {
    var restored := Restored(ms, item);
    var done := Rewrite(restored, item, env);
    if Starts(done, item, env) then [Task(done, PlainName(restored, item, env))] else []
  }

  /** The preview tasks started, in order, when the loop visits all of `s`. */
  function Tasks(s: seq<MediaSource>, item: ItemInfo, env: RewriteEnv): seq<Task> {
    FlatMap(s, ms => TaskOf(ms, item, env))
  }

  /** The MediaSources the handler answers with: previews are collected in the order their tasks started. */
  function Response(s: seq<MediaSource>, item: ItemInfo, env: RewriteEnv, preview: Task -> seq<MediaSource>)
    : seq<MediaSource>
  {
    if FirstRemote(s) < |s| then Rewritten(s, item, env)
    else Rewritten(s, item, env) + FlatMap(Tasks(s, item, env), preview)
  }

  /**
   * The loop over MediaSources in TransferPlaybackInfo, followed by the collection of the preview
   * results. The array is the document's MediaSources, rewritten in place; `body` is the MediaSources
   * of the response.
   */
  method TransferSources(sources: array<MediaSource>, item: ItemInfo, env: RewriteEnv,
                         preview: Task -> seq<MediaSource>) returns (body: seq<MediaSource>)
    modifies sources
    ensures sources[..] == Rewritten(old(sources[..]), item, env)
    ensures body == Response(old(sources[..]), item, env, preview)
  {
    var tasks, haveReturned := RewriteSources(sources, item, env);
    if haveReturned {
      return sources[..];
    }
    var previews := CollectPreviews(tasks, preview);
    body := sources[..] + previews;
  }

  /**
   * The per-source rewrite, in place. It stops at the first remote source (`haveReturned`); otherwise
   * `tasks` are the preview tasks started, in order.
   */
  method RewriteSources(sources: array<MediaSource>, item: ItemInfo, env: RewriteEnv)
    returns (tasks: seq<Task>, haveReturned: bool)
    modifies sources
    ensures sources[..] == Rewritten(old(sources[..]), item, env)
    ensures haveReturned <==> FirstRemote(old(sources[..])) < sources.Length
    ensures !haveReturned ==> tasks == Tasks(old(sources[..]), item, env)
  {
    ghost var s := sources[..];
    tasks := [];
    var i := 0;
    while i < sources.Length
      invariant i <= FirstRemote(s) && sources.Length == |s|
      invariant sources[..] == Locals(s[..i], item, env) + s[i..]
      invariant tasks == Tasks(s[..i], item, env)
    {
      ghost var a := sources[..];
      assert a[i] == s[i];
      var source := Restored(sources[i], item);
      if IsRemote(source) {
        sources[i] := source;
        assert sources[..] == a[i := source];
        StopAt(s, i, a, source, item, env);
        return tasks, true;
      }
      var name := PlainName(source, item, env);
      source := Rewrite(source, item, env);
      sources[i] := source;
      assert sources[..] == a[i := source];
      LocalStep(s, i, a, tasks, source, name, item, env);
      tasks := tasks + (if Starts(source, item, env) then [Task(source, name)] else []);
      i := i + 1;
    }
    ProgressDone(s, i, sources[..], tasks, item, env);
    haveReturned := false;
  }

  /** Replacing the element just after a prefix. */
  lemma Replace<X>(p: seq<X>, rest: seq<X>, v: X)
    requires rest != []
    ensures (p + rest)[|p| := v] == p + [v] + rest[1..]
  {
  }

  /** One local source rewritten in place extends the rewritten prefix by one. */
  lemma StepAt(s: seq<MediaSource>, i: nat, a: seq<MediaSource>, item: ItemInfo, env: RewriteEnv)
    requires i < |s| && a == Locals(s[..i], item, env) + s[i..]
    ensures a[i := Rewrite(Restored(s[i], item), item, env)] == Locals(s[..i + 1], item, env) + s[i + 1..]
  {
    var v := Rewrite(Restored(s[i], item), item, env);
    Replace(Locals(s[..i], item, env), s[i..], v);
    assert s[i..][1..] == s[i + 1..];
    assert s[..i + 1][..i] == s[..i];
    assert Locals(s[..i + 1], item, env) == Locals(s[..i], item, env) + [v];
  }

  /** When the loop runs to the end there was no remote source, and every source is rewritten. */
  lemma ProgressDone(s: seq<MediaSource>, i: nat, a: seq<MediaSource>, tasks: seq<Task>, item: ItemInfo, env: RewriteEnv)
    requires i == |s| && i <= FirstRemote(s) && a == Locals(s[..i], item, env) + s[i..]
    requires tasks == Tasks(s[..i], item, env)
    ensures a == Rewritten(s, item, env) && FirstRemote(s) == |s| && tasks == Tasks(s, item, env)
  {
    assert s[..i] == s && s[i..] == [];
  }

  /** The remote source restored in place completes the rewritten array. */
  lemma StopAt(s: seq<MediaSource>, i: nat, a: seq<MediaSource>, v: MediaSource, item: ItemInfo, env: RewriteEnv)
    requires i < |s| && i <= FirstRemote(s) && IsRemote(s[i]) && v == Restored(s[i], item)
    requires a == Locals(s[..i], item, env) + s[i..]
    ensures a[i := v] == Rewritten(s, item, env) && FirstRemote(s) < |s|
  {
    Replace(Locals(s[..i], item, env), s[i..], v);
    assert s[i..][1..] == s[i + 1..];
    assert FirstRemote(s) == i;
  }

  /** One local source: the rewritten prefix and the started tasks both grow by that source. */
  lemma LocalStep(s: seq<MediaSource>, i: nat, a: seq<MediaSource>, tasks: seq<Task>, v: MediaSource, name: string,
                  item: ItemInfo, env: RewriteEnv)
    requires i < |s| && i <= FirstRemote(s) && !IsRemote(Restored(s[i], item))
    requires a == Locals(s[..i], item, env) + s[i..] && tasks == Tasks(s[..i], item, env)
    requires v == Rewrite(Restored(s[i], item), item, env) && name == PlainName(Restored(s[i], item), item, env)
    ensures i + 1 <= FirstRemote(s)
    ensures a[i := v] == Locals(s[..i + 1], item, env) + s[i + 1..]
    ensures tasks + (if Starts(v, item, env) then [Task(v, name)] else []) == Tasks(s[..i + 1], item, env)
  {
    assert !IsRemote(s[i]);
    assert FirstRemote(s) != i;
    StepAt(s, i, a, item, env);
    TasksNext(s, i, item, env);
  }

  lemma TasksNext(s: seq<MediaSource>, i: nat, item: ItemInfo, env: RewriteEnv)
    requires i < |s|
    ensures Tasks(s[..i + 1], item, env) == Tasks(s[..i], item, env) + TaskOf(s[i], item, env)
  {
    assert s[..i + 1][..i] == s[..i];
  }

  /** Position `k` of Locals is the rewrite of source `k`. */
  lemma {:induction false} LocalsAt(s: seq<MediaSource>, item: ItemInfo, env: RewriteEnv, k: nat)
    requires k < |s|
    ensures Locals(s, item, env)[k] == Rewrite(Restored(s[k], item), item, env)
    decreases |s|
  {
    if k < |s| - 1 {
      LocalsAt(s[..|s| - 1], item, env, k);
    }
  }

  /** The collection loop: each task's result, in start order, with empty results adding nothing. */
  method CollectPreviews(tasks: seq<Task>, preview: Task -> seq<MediaSource>) returns (out: seq<MediaSource>)
    ensures out == FlatMap(tasks, preview)
  {
    out := [];
    var j := 0;
    while j < |tasks|
      invariant j <= |tasks|
      invariant out == FlatMap(tasks[..j], preview)
    {
      var previewInfos := preview(tasks[j]);
      if |previewInfos| > 0 {
        out := out + previewInfos;
      }
      assert tasks[..j + 1][..j] == tasks[..j];
      j := j + 1;
    }
    assert tasks[..j] == tasks;
  }

  /** When the loop meets a remote source, sources after it reach the response untouched and no preview is added. */
  lemma RemoteStops(s: seq<MediaSource>, item: ItemInfo, env: RewriteEnv, preview: Task -> seq<MediaSource>, k: nat)
    requires FirstRemote(s) < k < |s|
    ensures |Response(s, item, env, preview)| == |s|
    ensures Response(s, item, env, preview)[k] == s[k]
  {
    var stop := FirstRemote(s);
    assert Response(s, item, env, preview)[k] == s[stop + 1..][k - stop - 1];
  }

  /**
   * Sources before the first remote one keep their rewrite in the response, even when a remote one
   * follows; the remote one is only restored.
   */
  lemma EarlierSourcesRewritten(s: seq<MediaSource>, item: ItemInfo, env: RewriteEnv,
                                preview: Task -> seq<MediaSource>, k: nat)
    requires k < |s|
    ensures k < FirstRemote(s) ==> Response(s, item, env, preview)[k] == Rewrite(Restored(s[k], item), item, env)
    ensures k == FirstRemote(s) ==> Response(s, item, env, preview)[k] == Restored(s[k], item)
  {
    var stop := FirstRemote(s);
    if k < stop {
      if stop == |s| {
        LocalsAt(s, item, env, k);
      } else {
        LocalsAt(s[..stop], item, env, k);
      }
    }
  }

  /** With a MediaSourceId in the request, every visited source answers with the raw requested id. */
  lemma SpecificIdRestored(s: seq<MediaSource>, item: ItemInfo, env: RewriteEnv,
                           preview: Task -> seq<MediaSource>, k: nat)
    requires !item.msInfo.empty && k < |s| && k <= FirstRemote(s)
    ensures Response(s, item, env, preview)[k].id == item.msInfo.rawId
  {
    EarlierSourcesRewritten(s, item, env, preview, k);
  }

  /** No task starts for a request with a MediaSourceId, or with previews switched off. */
  lemma {:induction false} NoTasks(s: seq<MediaSource>, item: ItemInfo, env: RewriteEnv)
    requires !item.msInfo.empty || !env.previewEnabled
    ensures Tasks(s, item, env) == []
  {
    if s != [] {
      NoTasks(s[..|s| - 1], item, env);
    }
  }

  /** Without previews to start, the response is the rewritten array and nothing more. */
  lemma NoPreviewsAppended(s: seq<MediaSource>, item: ItemInfo, env: RewriteEnv, preview: Task -> seq<MediaSource>)
    requires !item.msInfo.empty || !env.previewEnabled
    ensures Response(s, item, env, preview) == Rewritten(s, item, env)
  {
    NoTasks(s, item, env);
  }

  /** FlatMap of consecutive runs: the results of `a` come before those of `b`. */
  lemma {:induction false} FlatMapAppend<X, Y>(a: seq<X>, b: seq<X>, f: X -> seq<Y>)
    ensures FlatMap(a + b, f) == FlatMap(a, f) + FlatMap(b, f)
    decreases |b|
  {
    if b == [] {
      assert a + b == a;
    } else {
      var u := a + b;
      assert u[..|u| - 1] == a + b[..|b| - 1];
      assert u[|u| - 1] == b[|b| - 1];
      FlatMapAppend(a, b[..|b| - 1], f);
    }
  }

  /**
   * Preview sources are appended in the order their sources were visited: those of the sources in `s`
   * come before those of the sources in `t`.
   */
  lemma PreviewsInStartOrder(s: seq<MediaSource>, t: seq<MediaSource>, item: ItemInfo, env: RewriteEnv,
                             preview: Task -> seq<MediaSource>)
    requires FirstRemote(s + t) == |s + t|
    ensures Response(s + t, item, env, preview)
         == Rewritten(s + t, item, env) + FlatMap(Tasks(s, item, env), preview) + FlatMap(Tasks(t, item, env), preview)
  {
    FlatMapAppend(s, t, ms => TaskOf(ms, item, env));
    FlatMapAppend(Tasks(s, item, env), Tasks(t, item, env), preview);
  }

  /** A single local source contributes the previews of one task exactly when the task starts. */
  lemma OneSourcePreviews(ms: MediaSource, item: ItemInfo, env: RewriteEnv, preview: Task -> seq<MediaSource>)
    requires !IsRemote(ms)
    ensures var done := Rewrite(Restored(ms, item), item, env);
      Response([ms], item, env, preview)
      == [done] + (if Starts(done, item, env) then preview(Task(done, PlainName(Restored(ms, item), item, env))) else [])
  {
    assert [ms][1..] == [] && [ms][..0] == [];
    assert FirstRemote([ms]) == 1;
    assert Locals([ms], item, env) == [Rewrite(Restored(ms, item), item, env)];
    var ts := TaskOf(ms, item, env);
    TasksNext([ms], 0, item, env);
    assert [ms][..1] == [ms];
    if ts != [] {
      assert ts[..0] == [];
      assert FlatMap(ts, preview) == preview(ts[0]);
    }
  }

  // ---------------------------------------------------------------------------------------
  // The playback-start update (updateCache)
  // ---------------------------------------------------------------------------------------

  /** The query parameters updateCache reads; an absent parameter is the empty string. */
  datatype Query = Query(isPlayback: string, audioStreamIndex: string, subtitleStreamIndex: string)

  /** A cached response: status, headers and body bytes. */
  datatype Entry = Entry(code: int, headers: map<string, string>, body: seq<Urls.byte>)

  /** The new default audio stream index, when AudioStreamIndex parses as an int. */
  function AudioOverride(q: Query): Option<int> {
    Urls.Atoi(q.audioStreamIndex)
  }

  /** The new default subtitle stream index, when SubtitleStreamIndex parses as an int. */
  function SubtitleOverride(q: Query): Option<int> {
    Urls.Atoi(q.subtitleStreamIndex)
  }

  /** A source with the overrides that are present put on it. */
  function Patch(ms: MediaSource, audio: Option<int>, sub: Option<int>): (r: MediaSource)
    ensures r.defaultAudioStreamIndex == if audio.Some? then audio else ms.defaultAudioStreamIndex
    ensures r.defaultSubtitleStreamIndex == if sub.Some? then sub else ms.defaultSubtitleStreamIndex
    ensures r.id == ms.id && r.itemId == ms.itemId
  {
    ms.(defaultAudioStreamIndex := if audio.Some? then audio else ms.defaultAudioStreamIndex,
        defaultSubtitleStreamIndex := if sub.Some? then sub else ms.defaultSubtitleStreamIndex)
  }

  /** The patch touches the two stream indices and nothing else. */
  lemma PatchKeepsRest(ms: MediaSource, audio: Option<int>, sub: Option<int>)
    ensures Patch(ms, audio, sub).(defaultAudioStreamIndex := ms.defaultAudioStreamIndex,
                                   defaultSubtitleStreamIndex := ms.defaultSubtitleStreamIndex) == ms
  {
  }

  /** A non-target source: patched when it belongs to the target's item, untouched otherwise. */
  function Sibling(ms: MediaSource, itemId: string, audio: Option<int>, sub: Option<int>): MediaSource {
    if ms.itemId == itemId then Patch(ms, audio, sub) else ms
  }

  function Siblings(xs: seq<MediaSource>, itemId: string, audio: Option<int>, sub: Option<int>): (r: seq<MediaSource>)
    ensures |r| == |xs|
  {
    seq(|xs|, k requires 0 <= k < |xs| => Sibling(xs[k], itemId, audio, sub))
  }

  /** Every source but the one at `t`, in order. */
  function Others(s: seq<MediaSource>, t: nat): seq<MediaSource>
    requires t < |s|
  {
    s[..t] + s[t + 1..]
  }

  /** The new MediaSources: the patched target first, then the others in their original order. */
  function Reordered(s: seq<MediaSource>, t: nat, audio: Option<int>, sub: Option<int>): (r: seq<MediaSource>)
    requires t < |s|
    ensures |r| == |s|
  {
    var target := Patch(s[t], audio, sub);
    [target] + Siblings(Others(s, t), target.itemId, audio, sub)
  }

  /** The update runs: IsPlayback is exactly "true" and the document has MediaSources holding index `t`. */
  predicate Applies(doc: Doc, t: nat, q: Query) {
    q.isPlayback == "true" && doc.mediaSources.Array? && t < |doc.mediaSources.items|
  }

  /** The document after the update. */
  function UpdatedDoc(doc: Doc, t: nat, q: Query): Doc
    requires Applies(doc, t, q)
  {
    doc.(mediaSources := Array(Reordered(doc.mediaSources.items, t, AudioOverride(q), SubtitleOverride(q))))
  }

  /** The cache entry refiled with the encoding of `doc` as its body. */
  function Refiled(e: Entry, doc: Doc, render: Doc -> string): (r: Entry)
    ensures r.code == e.code && r.body == Urls.Utf8(render(doc))
    ensures ContentLength in r.headers && r.headers[ContentLength] == Urls.Itoa(|r.body|)
    ensures forall h :: h != ContentLength ==> (h in r.headers <==> h in e.headers)
    ensures forall h :: h != ContentLength && h in e.headers ==> r.headers[h] == e.headers[h]
  {
    var body := Urls.Utf8(render(doc));
    Entry(e.code, e.headers[ContentLength := Urls.Itoa(|body|)], body)
  }

  /** The entry the cache holds after the update of `doc` at `t`. */
  function UpdatedEntry(e: Entry, doc: Doc, t: nat, q: Query, render: Doc -> string): Entry {
    if Applies(doc, t, q) then Refiled(e, UpdatedDoc(doc, t, q), render) else e
  }

  /** The ids of a list of sources. */
  function Ids(s: seq<MediaSource>): (r: seq<string>)
    ensures |r| == |s|
  {
    seq(|s|, k requires 0 <= k < |s| => s[k].id)
  }

  /** The sources before index `i` other than the one at `t`, in order (the loop's progress). */
  function Visited(s: seq<MediaSource>, t: nat, i: nat): seq<MediaSource>
    requires t < |s| && i <= |s|
  {
    if i <= t then s[..i] else s[..t] + s[t + 1..i]
  }

  /** The reordering loop of updateCache: the patched target, then every other source in order. */
  method ReorderSources(mediaSources: seq<MediaSource>, targetIdx: nat, newAdoVal: Option<int>, newSubVal: Option<int>)
    returns (newMediaSources: seq<MediaSource>)
    requires targetIdx < |mediaSources|
    ensures newMediaSources == Reordered(mediaSources, targetIdx, newAdoVal, newSubVal)
  {
    var targetMs := Patch(mediaSources[targetIdx], newAdoVal, newSubVal);
    newMediaSources := [targetMs];
    var targetItemId := targetMs.itemId;
    var index := 0;
    while index < |mediaSources|
      invariant index <= |mediaSources|
      invariant newMediaSources == [targetMs] + Siblings(Visited(mediaSources, targetIdx, index), targetItemId, newAdoVal, newSubVal)
    {
      if index != targetIdx {
        var value := mediaSources[index];
        if value.itemId == targetItemId {
          value := Patch(value, newAdoVal, newSubVal);
        }
        ReorderStep(mediaSources, targetIdx, index, targetMs, targetItemId, newAdoVal, newSubVal, newMediaSources);
        newMediaSources := newMediaSources + [value];
      } else {
        VisitedSkip(mediaSources, targetIdx, index);
      }
      index := index + 1;
    }
    assert Visited(mediaSources, targetIdx, index) == Others(mediaSources, targetIdx);
  }

  lemma ReorderStep(s: seq<MediaSource>, t: nat, i: nat, target: MediaSource, itemId: string,
                    audio: Option<int>, sub: Option<int>, acc: seq<MediaSource>)
    requires t < |s| && i < |s| && i != t
    requires acc == [target] + Siblings(Visited(s, t, i), itemId, audio, sub)
    ensures acc + [Sibling(s[i], itemId, audio, sub)] == [target] + Siblings(Visited(s, t, i + 1), itemId, audio, sub)
  {
    VisitedNext(s, t, i);
    SiblingsSnoc(Visited(s, t, i), s[i], itemId, audio, sub);
  }

  lemma VisitedSkip(s: seq<MediaSource>, t: nat, i: nat)
    requires t < |s| && i == t
    ensures Visited(s, t, i + 1) == Visited(s, t, i)
  {
  }

  lemma SiblingsSnoc(xs: seq<MediaSource>, x: MediaSource, itemId: string, audio: Option<int>, sub: Option<int>)
    ensures Siblings(xs + [x], itemId, audio, sub) == Siblings(xs, itemId, audio, sub) + [Sibling(x, itemId, audio, sub)]
  {
  }

  lemma VisitedNext(s: seq<MediaSource>, t: nat, i: nat)
    requires t < |s| && i < |s| && i != t
    ensures Visited(s, t, i + 1) == Visited(s, t, i) + [s[i]]
  {
    if i < t {
      assert s[..i + 1] == s[..i] + [s[i]];
    } else {
      assert s[t + 1..i + 1] == s[t + 1..i] + [s[i]];
    }
  }

  /** The ids of the new list: the target's first, then the others' in their original order. */
  lemma ReorderedIds(s: seq<MediaSource>, t: nat, audio: Option<int>, sub: Option<int>)
    requires t < |s|
    ensures Ids(Reordered(s, t, audio, sub)) == [s[t].id] + Ids(s[..t]) + Ids(s[t + 1..])
    ensures multiset(Ids(Reordered(s, t, audio, sub))) == multiset(Ids(s))
  {
    var target := Patch(s[t], audio, sub);
    var rest := Others(s, t);
    var p, x, q := Ids(s[..t]), s[t].id, Ids(s[t + 1..]);
    assert Ids([target]) == [x];
    assert Ids([s[t]]) == [x];
    IdsAppend([target], Siblings(rest, target.itemId, audio, sub));
    SiblingsIds(rest, target.itemId, audio, sub);
    IdsAppend(s[..t], s[t + 1..]);
    assert Ids(Reordered(s, t, audio, sub)) == [x] + p + q;
    assert s == s[..t] + ([s[t]] + s[t + 1..]);
    IdsAppend([s[t]], s[t + 1..]);
    IdsAppend(s[..t], [s[t]] + s[t + 1..]);
    assert Ids(s) == p + ([x] + q);
    MovedToFront(p, x, q);
  }

  /** Moving one element to the front permutes a sequence. */
  lemma MovedToFront<X>(p: seq<X>, x: X, q: seq<X>)
    ensures multiset([x] + p + q) == multiset(p + ([x] + q))
  {
    calc {
      multiset([x] + p + q);
      multiset([x]) + multiset(p) + multiset(q);
      multiset(p) + (multiset([x]) + multiset(q));
      multiset(p + ([x] + q));
    }
  }

  lemma IdsAppend(a: seq<MediaSource>, b: seq<MediaSource>)
    ensures Ids(a + b) == Ids(a) + Ids(b)
  {
  }

  /** Patching siblings changes no id. */
  lemma SiblingsIds(xs: seq<MediaSource>, itemId: string, audio: Option<int>, sub: Option<int>)
    ensures Ids(Siblings(xs, itemId, audio, sub)) == Ids(xs)
  {
  }

  /** Without overrides the new list is a permutation of the old one. */
  lemma ReorderedPermutation(s: seq<MediaSource>, t: nat)
    requires t < |s|
    ensures multiset(Reordered(s, t, None, None)) == multiset(s)
  {
    var r := Reordered(s, t, None, None);
    assert r == [s[t]] + s[..t] + s[t + 1..];
    assert s == s[..t] + [s[t]] + s[t + 1..];
  }

  /**
   * Every source of the target's item, target included, carries the overrides that parsed; every
   * source of another item is one of the old sources, unchanged.
   */
  lemma ReorderedIndices(s: seq<MediaSource>, t: nat, audio: Option<int>, sub: Option<int>, k: nat)
    requires t < |s| && k < |s|
    ensures var r := Reordered(s, t, audio, sub);
      r[k].itemId == s[t].itemId ==>
        (audio.Some? ==> r[k].defaultAudioStreamIndex == audio) && (sub.Some? ==> r[k].defaultSubtitleStreamIndex == sub)
    ensures var r := Reordered(s, t, audio, sub);
      r[k].itemId != s[t].itemId ==> k > 0 && r[k] == Others(s, t)[k - 1]
  {
  }

  // ---------------------------------------------------------------------------------------
  // Lookup by unescaped id (findMediaSourceAndReturn)
  // ---------------------------------------------------------------------------------------

  /** url.QueryUnescape of an id, on its UTF-8 bytes. */
  function UnescapeId(id: string): Option<seq<Urls.byte>> {
    Urls.QueryUnescape(Urls.Utf8(id))
  }

  /** The index of the first source whose unescaped Id is `reqId`, or `|s|`. */
  function FirstMatch(s: seq<MediaSource>, reqId: seq<Urls.byte>): (i: nat)
    ensures i <= |s|
    ensures forall k :: 0 <= k < i ==> UnescapeId(s[k].id) != Some(reqId)
    ensures i < |s| ==> UnescapeId(s[i].id) == Some(reqId)
  {
    if s == [] || UnescapeId(s[0].id) == Some(reqId) then 0 else 1 + FirstMatch(s[1..], reqId)
  }

  /** A response the reuse procedure writes. */
  datatype Reply =
    | Verbatim(code: int, headers: map<string, string>, body: seq<Urls.byte>)  // the cached bytes as they are
    | Selected(headers: map<string, string>, doc: Doc)                         // status 200, one source
    | Failed                                                                   // the self-request failed

  /** The outcome of the lookup on one cache entry: the response, if any, and the entry afterwards. */
  datatype Found = Found(reply: Option<Reply>, entry: Entry)

  /** The matched source as the response carries it: the target after the update, when it ran. */
  function Chosen(doc: Doc, t: nat, q: Query): MediaSource
    requires doc.mediaSources.Array? && t < |doc.mediaSources.items|
  {
    var ms := doc.mediaSources.items[t];
    if Applies(doc, t, q) then Patch(ms, AudioOverride(q), SubtitleOverride(q)) else ms
  }

  /** findMediaSourceAndReturn on entry `e`. */
  function Find(e: Entry, reqId: seq<Urls.byte>, q: Query, decode: seq<Urls.byte> -> Decoded,
                render: Doc -> string): Found
  {
    var d := decode(e.body);
    if d.failed || !d.doc.mediaSources.Array? || |d.doc.mediaSources.items| == 0 then Found(None, e)
    else
      var i := FirstMatch(d.doc.mediaSources.items, reqId);
      if i == |d.doc.mediaSources.items| then Found(None, e)
      else
        var e' := UpdatedEntry(e, d.doc, i, q, render);
        Found(Some(Selected(e'.headers - {ContentLength}, d.doc.(mediaSources := Array([Chosen(d.doc, i, q)])))), e')
  }

  /** The lookup when the source at `i` is the first match. */
  lemma FindAt(e: Entry, reqId: seq<Urls.byte>, q: Query, decode: seq<Urls.byte> -> Decoded, render: Doc -> string, i: nat)
    requires !decode(e.body).failed && decode(e.body).doc.mediaSources.Array?
    requires i < |decode(e.body).doc.mediaSources.items| && UnescapeId(decode(e.body).doc.mediaSources.items[i].id) == Some(reqId)
    requires forall k :: 0 <= k < i ==> UnescapeId(decode(e.body).doc.mediaSources.items[k].id) != Some(reqId)
    ensures var d := decode(e.body).doc; var e' := UpdatedEntry(e, d, i, q, render);
      Find(e, reqId, q, decode, render)
      == Found(Some(Selected(e'.headers - {ContentLength}, d.(mediaSources := Array([Chosen(d, i, q)])))), e')
  {
    FirstMatchIs(decode(e.body).doc.mediaSources.items, reqId, i);
  }

  /** FirstMatch is characterised by its contract: a match at `i` (or the end) and none before. */
  lemma FirstMatchIs(s: seq<MediaSource>, reqId: seq<Urls.byte>, i: nat)
    requires i <= |s| && (i < |s| ==> UnescapeId(s[i].id) == Some(reqId))
    requires forall k :: 0 <= k < i ==> UnescapeId(s[k].id) != Some(reqId)
    ensures FirstMatch(s, reqId) == i
  {
  }

  /** The lookup answers with exactly the first source whose unescaped Id matches, and only with it. */
  lemma FindSelectsFirstMatch(e: Entry, reqId: seq<Urls.byte>, q: Query, decode: seq<Urls.byte> -> Decoded,
                              render: Doc -> string)
    ensures var f := Find(e, reqId, q, decode, render);
      f.reply.Some? <==>
        (!decode(e.body).failed && decode(e.body).doc.mediaSources.Array?
         && exists k :: 0 <= k < |decode(e.body).doc.mediaSources.items|
                        && UnescapeId(decode(e.body).doc.mediaSources.items[k].id) == Some(reqId))
    ensures var f := Find(e, reqId, q, decode, render);
      f.reply.Some? ==>
        (f.reply.value.Selected? && f.reply.value.doc.mediaSources.Array?
         && |f.reply.value.doc.mediaSources.items| == 1
         && UnescapeId(f.reply.value.doc.mediaSources.items[0].id) == Some(reqId)
         && ContentLength !in f.reply.value.headers)
    ensures Find(e, reqId, q, decode, render).reply.None? ==> Find(e, reqId, q, decode, render).entry == e
  {
    var d := decode(e.body);
    if !d.failed && d.doc.mediaSources.Array? {
      var s := d.doc.mediaSources.items;
      var i := FirstMatch(s, reqId);
      if i < |s| {
        assert Chosen(d.doc, i, q).id == s[i].id;
      }
    }
  }

  /** After a playback-start request the cached list starts with the requested source. */
  lemma PlaybackStartMovesTargetFirst(e: Entry, reqId: seq<Urls.byte>, q: Query, decode: seq<Urls.byte> -> Decoded,
                                      render: Doc -> string)
    requires !decode(e.body).failed && decode(e.body).doc.mediaSources.Array?
    requires FirstMatch(decode(e.body).doc.mediaSources.items, reqId) < |decode(e.body).doc.mediaSources.items|
    requires q.isPlayback == "true"
    ensures var d := decode(e.body).doc;
      var i := FirstMatch(d.mediaSources.items, reqId);
      var newDoc := UpdatedDoc(d, i, q);
      Find(e, reqId, q, decode, render).entry == Refiled(e, newDoc, render)
      && UnescapeId(newDoc.mediaSources.items[0].id) == Some(reqId)
  {
  }

  // ---------------------------------------------------------------------------------------
  // The cache-reuse procedure (useCacheSpacePlaybackInfo)
  // ---------------------------------------------------------------------------------------

  /**
   * The result of the internal request for the whole PlaybackInfo: a transport error, or the cache
   * space as the forwarding path left it once the request completed.
   */
  datatype SelfRequest = RequestFailed | Filled(entries: map<string, Entry>)

  /** What the procedure returns, the response it writes, and the cache space afterwards. */
  datatype Decision = Decision(served: bool, reply: Option<Reply>, entries: map<string, Entry>)

  /** useCacheSpacePlaybackInfo. */
  function Reuse(entries: map<string, Entry>, item: ItemInfo, q: Query, autoRequestAll: bool,
                 refetch: SelfRequest, decode: seq<Urls.byte> -> Decoded, render: Doc -> string): Decision
    decreases if autoRequestAll then 1 else 0
  {
    var reqId := UnescapeId(item.msInfo.rawId);
    if reqId.None? then Decision(false, None, entries)
    else if item.id in entries && item.msInfo.empty then
      var e := entries[item.id];
      Decision(true, Some(Verbatim(e.code, e.headers, e.body)), entries)
    else if item.id in entries && Find(entries[item.id], reqId.value, q, decode, render).reply.Some? then
      var f := Find(entries[item.id], reqId.value, q, decode, render);
      Decision(true, f.reply, entries[item.id := f.entry])
    else if item.msInfo.empty || !autoRequestAll then Decision(false, None, entries)
    else if refetch.RequestFailed? then Decision(true, Some(Failed), entries)
    else Reuse(refetch.entries, item, q, false, refetch, decode, render)
  }

  /** A raw id that does not unescape ends the procedure at once. */
  lemma BadRawIdMisses(entries: map<string, Entry>, item: ItemInfo, q: Query, autoRequestAll: bool,
                       refetch: SelfRequest, decode: seq<Urls.byte> -> Decoded, render: Doc -> string)
    requires UnescapeId(item.msInfo.rawId).None?
    ensures Reuse(entries, item, q, autoRequestAll, refetch, decode, render) == Decision(false, None, entries)
  {
  }

  /**
   * Without a MediaSourceId, a cache hit answers with the cached status, headers and bytes verbatim, and a
   * miss answers false without any request.
   */
  lemma WholeDocumentFromCache(entries: map<string, Entry>, item: ItemInfo, q: Query, autoRequestAll: bool,
                               refetch: SelfRequest, decode: seq<Urls.byte> -> Decoded, render: Doc -> string)
    requires item.msInfo.empty && UnescapeId(item.msInfo.rawId).Some?
    ensures var d := Reuse(entries, item, q, autoRequestAll, refetch, decode, render);
      d.entries == entries
      && (d.served <==> item.id in entries)
      && (item.id in entries ==>
            d.reply == Some(Verbatim(entries[item.id].code, entries[item.id].headers, entries[item.id].body)))
  {
  }

  /** Without autoRequestAll the internal request is never made: the refetch result plays no part. */
  lemma NoAutoRequestIgnoresRefetch(entries: map<string, Entry>, item: ItemInfo, q: Query,
                                    r1: SelfRequest, r2: SelfRequest, decode: seq<Urls.byte> -> Decoded,
                                    render: Doc -> string)
    ensures Reuse(entries, item, q, false, r1, decode, render) == Reuse(entries, item, q, false, r2, decode, render)
    ensures var d := Reuse(entries, item, q, false, r1, decode, render);
      !d.served ==> d.reply.None? && d.entries == entries
  {
  }

  /**
   * A specific request that misses makes the internal request once and then retries with autoRequestAll
   * false, on the cache space that request left: the recursion is at most two calls deep.
   */
  lemma RetryOnce(entries: map<string, Entry>, item: ItemInfo, q: Query, m: map<string, Entry>,
                  decode: seq<Urls.byte> -> Decoded, render: Doc -> string)
    requires !item.msInfo.empty && UnescapeId(item.msInfo.rawId).Some?
    requires item.id in entries ==> Find(entries[item.id], UnescapeId(item.msInfo.rawId).value, q, decode, render).reply.None?
    ensures Reuse(entries, item, q, true, Filled(m), decode, render)
         == Reuse(m, item, q, false, RequestFailed, decode, render)
    ensures Reuse(entries, item, q, true, RequestFailed, decode, render) == Decision(true, Some(Failed), entries)
  {
    NoAutoRequestIgnoresRefetch(m, item, q, Filled(m), RequestFailed, decode, render);
  }

  /** The PlaybackInfo cache space: response entries by item id, updated in place. */
  class Space {
    var entries: map<string, Entry>

    constructor (initial: map<string, Entry>)
      ensures entries == initial
    {
      entries := initial;
    }

    /**
     * updateCache: with IsPlayback "true" and the target present, the target moves to the front, it and its
     * siblings of the same item take the parsed overrides, and the entry is refiled with the new body and a
     * matching Content-Length; otherwise nothing changes. `newDoc` is the document after the update.
     */
    method UpdateCache(key: string, doc: Doc, targetIdx: nat, q: Query, render: Doc -> string) returns (newDoc: Doc)
      requires key in entries
      modifies this
      ensures Applies(doc, targetIdx, q) ==> newDoc == UpdatedDoc(doc, targetIdx, q)
      ensures !Applies(doc, targetIdx, q) ==> newDoc == doc
      ensures entries == old(entries)[key := UpdatedEntry(old(entries)[key], doc, targetIdx, q, render)]
    {
      newDoc := doc;
      if q.isPlayback != "true" {
        assert entries == entries[key := entries[key]];
        return;
      }
      if !doc.mediaSources.Array? {
        assert entries == entries[key := entries[key]];
        return;
      }
      var mediaSources := doc.mediaSources.items;
      if targetIdx >= |mediaSources| {
        assert entries == entries[key := entries[key]];
        return;
      }
      var newAdoVal := Urls.Atoi(q.audioStreamIndex);
      var newSubVal := Urls.Atoi(q.subtitleStreamIndex);
      var newMediaSources := ReorderSources(mediaSources, targetIdx, newAdoVal, newSubVal);
      newDoc := doc.(mediaSources := Array(newMediaSources));
      var newBody := Urls.Utf8(render(newDoc));
      var old_ := entries[key];
      var newHeader := old_.headers[ContentLength := Urls.Itoa(|newBody|)];
      entries := entries[key := Entry(old_.code, newHeader, newBody)];
    }

    /** findMediaSourceAndReturn on the entry of `key`: the response, when some source matched. */
    method FindAndReturn(key: string, reqId: seq<Urls.byte>, q: Query, decode: seq<Urls.byte> -> Decoded,
                         render: Doc -> string) returns (reply: Option<Reply>)
      requires key in entries
      modifies this
      ensures reply == Find(old(entries)[key], reqId, q, decode, render).reply
      ensures entries == old(entries)[key := Find(old(entries)[key], reqId, q, decode, render).entry]
    {
      var d := decode(entries[key].body);
      if d.failed {
        assert entries == entries[key := entries[key]];
        return None;
      }
      var jsonBody := d.doc;
      if !jsonBody.mediaSources.Array? || |jsonBody.mediaSources.items| == 0 {
        assert entries == entries[key := entries[key]];
        return None;
      }
      var mediaSources := jsonBody.mediaSources.items;
      var index := 0;
      while index < |mediaSources| && UnescapeId(mediaSources[index].id) != Some(reqId)
        invariant index <= |mediaSources|
        invariant forall k :: 0 <= k < index ==> UnescapeId(mediaSources[k].id) != Some(reqId)
        invariant entries == old(entries)
      {
        index := index + 1;
      }
      if index == |mediaSources| {
        FirstMatchIs(mediaSources, reqId, index);
        assert entries == entries[key := entries[key]];
        return None;
      }
      FindAt(old(entries)[key], reqId, q, decode, render, index);
      var value := Chosen(jsonBody, index, q);
      var _ := UpdateCache(key, jsonBody, index, q, render);
      var respHeader := entries[key].headers - {ContentLength};
      reply := Some(Selected(respHeader, jsonBody.(mediaSources := Array([value]))));
    }

    /**
     * useCacheSpacePlaybackInfo: `served` is its boolean result, `reply` the response it wrote. The
     * internal request is `refetch`; the retry passes autoRequestAll false, which bounds the recursion.
     */
    method UseCache(item: ItemInfo, q: Query, autoRequestAll: bool, refetch: SelfRequest,
                    decode: seq<Urls.byte> -> Decoded, render: Doc -> string) returns (served: bool, reply: Option<Reply>)
      modifies this
      ensures Decision(served, reply, entries) == Reuse(old(entries), item, q, autoRequestAll, refetch, decode, render)
      decreases if autoRequestAll then 1 else 0
    {
      var reqId := UnescapeId(item.msInfo.rawId);
      if reqId.None? {
        return false, None;
      }
      if item.id in entries {
        if item.msInfo.empty {
          var e := entries[item.id];
          return true, Some(Verbatim(e.code, e.headers, e.body));
        }
        reply := FindAndReturn(item.id, reqId.value, q, decode, render);
        if reply.Some? {
          return true, reply;
        }
        assert entries == old(entries);
      }
      if item.msInfo.empty || !autoRequestAll {
        return false, None;
      }
      if refetch.RequestFailed? {
        return true, Some(Failed);
      }
      entries := refetch.entries;
      served, reply := UseCache(item, q, false, refetch, decode, render);
    }
  }

  // ---------------------------------------------------------------------------------------
  // LoadCacheItems
  // ---------------------------------------------------------------------------------------

  /** The simple case folding Go's `(?i)` applies to the letters of "movie" and "episode". */
  function FoldChar(c: char): char {
    if 'A' <= c <= 'Z' then (c as int + 32) as char
    else if c == 'ſ' then 's'
    else c
  }

  function Fold(s: string): (r: string)
    ensures |r| == |s|
  {
    seq(|s|, k requires 0 <= k < |s| => FoldChar(s[k]))
  }

  /** ValidCacheItemsTypeRegex `(?i)(movie|episode)`: an unanchored, case-insensitive search. */
  predicate ItemsTypeValid(itemType: string) {
    Strs.Contains(Fold(itemType), "movie") || Strs.Contains(Fold(itemType), "episode")
  }

  /** The regular expression accepts the Emby item types it is meant for and rejects others. */
  lemma ItemsTypes()
    ensures ItemsTypeValid("Movie") && ItemsTypeValid("Episode") && ItemsTypeValid("episode")
    ensures !ItemsTypeValid("Series") && !ItemsTypeValid("")
  {
    assert Fold("Movie") == "movie";
    assert Strs.OccursAt(Fold("Movie"), "movie", 0);
    assert Fold("Episode") == "episode";
    assert Strs.OccursAt(Fold("Episode"), "episode", 0);
    assert Fold("episode") == "episode";
    assert Strs.OccursAt(Fold("episode"), "episode", 0);
    assert Fold("Series") == "series";
    forall j: nat ensures !Strs.OccursAt("series", "movie", j) {
      if j + 5 <= 6 {
        assert "series"[j..j + 5][0] == "series"[j];
      }
    }
  }

  /** The manual PlaybackInfo request: unreachable, or a status with a body (`None` when reading it failed). */
  datatype ManualReply = Unreachable | Answered(status: int, body: Option<seq<Urls.byte>>)

  /** The Items response: the document and whether Content-Length was dropped. */
  datatype ItemsReply = ItemsReply(doc: Doc, lengthDropped: bool)

  /** coverMediaSources: the MediaSources of `info`, when it is an array. */
  function Cover(info: Doc): (r: Option<seq<MediaSource>>)
    ensures r.Some? <==> info.mediaSources.Array?
  {
    if info.mediaSources.Array? then Some(info.mediaSources.items) else None
  }

  /** The Items response with `sources` spliced over its MediaSources. */
  function Spliced(resp: Doc, sources: Option<seq<MediaSource>>): (r: ItemsReply)
    ensures sources.None? ==> r == ItemsReply(resp, false)
    ensures sources.Some? ==> r.doc.mediaSources == Array(sources.value) && r.lengthDropped
    ensures r.doc.typeName == resp.typeName && r.doc.rest == resp.rest
  {
    if sources.Some? then ItemsReply(resp.(mediaSources := Array(sources.value)), true) else ItemsReply(resp, false)
  }

  /** The sources the manual request yields; every failure is swallowed as `None`. */
  function ManualSources(reply: ManualReply, decode: seq<Urls.byte> -> Decoded): Option<seq<MediaSource>> {
    match reply
    case Unreachable => None
    case Answered(status, body) =>
      if status != StatusOK || body.None? || decode(body.value).failed then None
      else Cover(decode(body.value).doc)
  }

  /** The Items handler is in play: previews enabled, an item type the regular expression accepts, a resolved item. */
  predicate Patches(resp: Doc, previewEnabled: bool, resolved: Option<ItemInfo>) {
    previewEnabled && ItemsTypeValid(resp.typeName) && resolved.Some?
  }

  /**
   * LoadCacheItems after a successful proxy of the Items request, as written: the cached document is used
   * only when decoding it FAILED (`err != nil && coverMediaSources(cacheBody)`).
   */
  function LoadCacheItems(resp: Doc, previewEnabled: bool, resolved: Option<ItemInfo>, entries: map<string, Entry>,
                          decode: seq<Urls.byte> -> Decoded, manual: ManualReply): ItemsReply
  {
    if !Patches(resp, previewEnabled, resolved) then ItemsReply(resp, false)
    else
      var id := resolved.value.id;
      if id in entries && decode(entries[id].body).failed && Cover(decode(entries[id].body).doc).Some? then
        Spliced(resp, Cover(decode(entries[id].body).doc))
      else Spliced(resp, ManualSources(manual, decode))
  }

  /**
   * LoadCacheItems as its doc comments say (playbackinfo.go:333-336 and 389): the cached document
   * is used when it decodes.
   */
  function LoadCacheItemsIntended(resp: Doc, previewEnabled: bool, resolved: Option<ItemInfo>,
                                  entries: map<string, Entry>, decode: seq<Urls.byte> -> Decoded,
                                  manual: ManualReply): ItemsReply
  {
    if !Patches(resp, previewEnabled, resolved) then ItemsReply(resp, false)
    else
      var id := resolved.value.id;
      if id in entries && !decode(entries[id].body).failed && Cover(decode(entries[id].body).doc).Some? then
        Spliced(resp, Cover(decode(entries[id].body).doc))
      else Spliced(resp, ManualSources(manual, decode))
  }

  /** With previews off, an unaccepted type or an unresolved item, the Items response passes untouched. */
  lemma ItemsUntouchedWhenGated(resp: Doc, previewEnabled: bool, resolved: Option<ItemInfo>,
                                entries: map<string, Entry>, decode: seq<Urls.byte> -> Decoded, manual: ManualReply)
    requires !Patches(resp, previewEnabled, resolved)
    ensures LoadCacheItems(resp, previewEnabled, resolved, entries, decode, manual) == ItemsReply(resp, false)
    ensures LoadCacheItemsIntended(resp, previewEnabled, resolved, entries, decode, manual) == ItemsReply(resp, false)
  {
  }

  /**
   * As written, a cached PlaybackInfo that decodes and holds a MediaSources array is never used: the handler
   * always falls through to the manual request, and with that request failing the Items response keeps its
   * own sources.
   */
  lemma CachedSourcesIgnored(resp: Doc, resolved: Option<ItemInfo>, entries: map<string, Entry>,
                             decode: seq<Urls.byte> -> Decoded, manual: ManualReply)
    requires Patches(resp, true, resolved) && resolved.value.id in entries
    requires !decode(entries[resolved.value.id].body).failed
    requires decode(entries[resolved.value.id].body).doc.mediaSources.Array?
    ensures LoadCacheItems(resp, true, resolved, entries, decode, manual) == Spliced(resp, ManualSources(manual, decode))
    ensures LoadCacheItems(resp, true, resolved, entries, decode, Unreachable) == ItemsReply(resp, false)
  {
  }

  /** As intended, such a cached PlaybackInfo supplies the MediaSources and the manual request is not consulted. */
  lemma CachedSourcesPreferred(resp: Doc, resolved: Option<ItemInfo>, entries: map<string, Entry>,
                               decode: seq<Urls.byte> -> Decoded, manual: ManualReply)
    requires Patches(resp, true, resolved) && resolved.value.id in entries
    requires !decode(entries[resolved.value.id].body).failed
    requires decode(entries[resolved.value.id].body).doc.mediaSources.Array?
    ensures var r := LoadCacheItemsIntended(resp, true, resolved, entries, decode, manual);
      r.doc.mediaSources == decode(entries[resolved.value.id].body).doc.mediaSources && r.lengthDropped
  {
  }

  /** Any failure of the manual request leaves the Items response as the proxy returned it. */
  lemma ManualFailureSwallowed(resp: Doc, previewEnabled: bool, resolved: Option<ItemInfo>,
                               entries: map<string, Entry>, decode: seq<Urls.byte> -> Decoded, manual: ManualReply)
    requires ManualSources(manual, decode).None?
    requires resolved.Some? ==> resolved.value.id !in entries
    ensures LoadCacheItems(resp, previewEnabled, resolved, entries, decode, manual) == ItemsReply(resp, false)
    ensures LoadCacheItemsIntended(resp, previewEnabled, resolved, entries, decode, manual) == ItemsReply(resp, false)
  {
  }
}
