/** `POST /api/convert` up to the point where streaming starts (server.js):
    admission, extractor lookup, metadata with its one fallback, tag and file
    name composition, the response headers, the choice of audio source, and
    the per-request state the event handlers share. */
module ConvertHandler {
  import opened JsValues
  import Admission
  import Metadata
  import FileNaming
  import Extractor
  import Pipeline

  /** The audio source: a spawned yt-dlp process or a ytdl-core stream. */
  datatype SourceKind = YtDlpProcess | YtdlCoreStream

  /** `Refused`: the 400 answer of admission. `HeaderRefused`: setting the
      `Content-Disposition` header throws (the file name holds a character an
      HTTP header value may not carry), so the handler stops there without
      answering. `Streaming`: the headers are set and a source is chosen. */
  datatype Reply =
    | Refused(status: int, error: string)
    | HeaderRefused(fileName: string)
    | Streaming(contentType: string, disposition: string, bitrate: real,
                tags: Metadata.Tags, source: SourceKind)

  /** What the outside world answers during one request: the probes seen by
      the first and by a second `ensureYtDlp`, what each info backend returns
      (`None`: it failed) and what `extractIdFromUrl` returns. */
  datatype World = World(firstProbes: Extractor.Probes, secondProbes: Extractor.Probes,
                         ytDlpInfo: Option<Metadata.YtDlpJson>, ytdlInfo: Option<Metadata.YtdlInfo>,
                         urlId: string)

  const AudioMpeg := "audio/mpeg"

  /** The characters Node's `setHeader` accepts in a header value: tab, visible
      ASCII and space, and U+0080 to U+00FF. Any other character makes it throw. */
  predicate HeaderChar(c: char)
  {
    c == '\t' || (' ' <= c <= '~') || ('\U{80}' <= c <= '\U{FF}')
  }

  predicate HeaderValueValid(v: string)
  {
    forall i :: 0 <= i < |v| ==> HeaderChar(v[i])
  }

  /** The framing of `Content-Disposition` is valid, so the header is accepted
      exactly when the file name is. */
  lemma DispositionValidIffName(fileName: string)
    ensures HeaderValueValid(FileNaming.DispositionHeader(fileName)) <==> HeaderValueValid(fileName)
  {
    var h := FileNaming.DispositionHeader(fileName);
    var prefix := "attachment; filename=\"";
    assert h == prefix + fileName + "\"";
    assert forall i :: 0 <= i < |fileName| ==> h[|prefix| + i] == fileName[i];
    assert forall i :: 0 <= i < |prefix| ==> h[i] == prefix[i] && HeaderChar(prefix[i]);
    assert h[|h| - 1] == '"';
    if HeaderValueValid(fileName) {
      forall i | 0 <= i < |h| ensures HeaderChar(h[i]) {
        if i < |prefix| {
        } else if i < |prefix| + |fileName| {
          assert h[i] == fileName[i - |prefix|];
        }
      }
    }
  }

  /** The reply once metadata is settled: the headers are set from the
      normalised tags, ffmpeg gets the bitrate and the tags, and the source
      is yt-dlp exactly when an extractor path is held. A file name the header
      cannot carry stops the handler at `setHeader`. */
  function StreamingReply(res: Metadata.Resolution, bitrate: real, urlId: string,
                          sanitize: string -> string): (r: Reply)
    ensures var tags := Metadata.Normalize(res.info, urlId);
      var fileName := FileNaming.FileName(tags, sanitize);
      (r.Streaming? <==> HeaderValueValid(fileName)) &&
      (r.HeaderRefused? <==> !HeaderValueValid(fileName)) &&
      (r.HeaderRefused? ==> r.fileName == fileName) &&
      (r.Streaming? ==>
        r.contentType == AudioMpeg && r.bitrate == bitrate &&
        r.tags == tags && r.tags.title != "" && r.tags.artist != "" &&
        r.disposition == FileNaming.DispositionHeader(fileName) &&
        (r.source == YtDlpProcess <==> res.path.Some?))
  {
    var tags := Metadata.Normalize(res.info, urlId);
    var fileName := FileNaming.FileName(tags, sanitize);
    var disposition := FileNaming.DispositionHeader(fileName);
    DispositionValidIffName(fileName);
    if !HeaderValueValid(disposition) then HeaderRefused(fileName)
    else Streaming(AudioMpeg, disposition, bitrate, tags, if res.path.Some? then YtDlpProcess else YtdlCoreStream)
  }

  /** A title holding a character above U+00FF (an emoji, CJK text) that
      `sanitize` keeps leaves the request without a stream. */
  lemma WideTitleNotStreamed(res: Metadata.Resolution, bitrate: real, urlId: string,
                             sanitize: string -> string, i: nat)
    requires var fileName := FileNaming.FileName(Metadata.Normalize(res.info, urlId), sanitize);
      i < |fileName| && fileName[i] > '\U{FF}'
    ensures StreamingReply(res, bitrate, urlId, sanitize).HeaderRefused?
  {
  }

  class Server {
    /** The process-wide `cachedYtDlpPath` and the paths it is chosen from. */
    const locator: Extractor.Locator

    ghost predicate Valid()
      reads this, locator
    {
      locator.Valid()
    }

    constructor (envPath: string, localPath: string)
      requires localPath != ""
      ensures Valid() && fresh(locator)
      ensures locator.envPath == envPath && locator.localPath == localPath
      ensures locator.cached == None && locator.probed == []
    {
      locator := new Extractor.Locator(envPath, localPath);
    }

    /** The extractor lookup and the metadata block, with its one fallback:
        the metadata and the path held afterwards are those of `Resolve`, and
        the path held is what the extractor cache now holds. */
    method FetchInfo(world: World) returns (path: Option<string>, info: Option<Metadata.VideoInfo>)
      requires Valid()
      modifies locator
      ensures Valid()
      ensures var first := Extractor.EnsureResult(old(locator.cached), locator.envPath, locator.localPath, world.firstProbes);
        var second := Extractor.EnsureResult(None, locator.envPath, locator.localPath, world.secondProbes);
        var res := Metadata.Resolve(first, second, world.ytDlpInfo, world.ytdlInfo);
        path == res.path && info == res.info && locator.cached == res.path &&
        (old(locator.cached).None? ==>
          locator.probed == old(locator.probed) +
            Extractor.Probe(locator.envPath, locator.localPath, world.firstProbes).tried +
            (if first.None? && world.ytdlInfo.None?
             then Extractor.Probe(locator.envPath, locator.localPath, world.secondProbes).tried
             else []))
      ensures old(locator.cached).Some? ==> locator.cached == old(locator.cached) && locator.probed == old(locator.probed)
    {
      path := locator.Ensure(world.firstProbes);
      if path.Some? {
        if world.ytDlpInfo.Some? {
          info := Some(Metadata.FromYtDlp(world.ytDlpInfo.value));
        } else if world.ytdlInfo.Some? {
          info := Some(Metadata.FromYtdl(world.ytdlInfo.value));
        } else {
          info := None;
        }
      } else if world.ytdlInfo.Some? {
        info := Some(Metadata.FromYtdl(world.ytdlInfo.value));
      } else {
        path := locator.Ensure(world.secondProbes);
        if path.Some? && world.ytDlpInfo.Some? {
          info := Some(Metadata.FromYtDlp(world.ytDlpInfo.value));
        } else {
          info := None;
        }
      }
    }

    /** One request. `url` is the body's `url` field, `parsedHost` what the URL
        parser answers for it, `bitrate` the value of `Number(bitrate)`, and
        `sanitize` is `sanitize-filename`. A refused request leaves the
        extractor cache and its probes untouched. An admitted one looks up the
        extractor (a second time only when ytdl-core failed without a path),
        caches what it finds, and streams with or without metadata unless the
        file name cannot be put in the header. */
    method HandleConvert(url: Option<string>, parsedHost: Option<string>, bitrate: Admission.NumberValue,
                         world: World, sanitize: string -> string)
      returns (reply: Reply, conv: Pipeline.Conversion?)
      requires Valid()
      modifies locator
      ensures Valid()
      ensures var a := Admission.Admit(url, parsedHost, bitrate);
        a.Rejected? ==>
          reply == Refused(a.status, a.error) && conv == null &&
          locator.cached == old(locator.cached) && locator.probed == old(locator.probed)
      ensures var a := Admission.Admit(url, parsedHost, bitrate);
        a.Admitted? ==>
          var first := Extractor.EnsureResult(old(locator.cached), locator.envPath, locator.localPath, world.firstProbes);
          var second := Extractor.EnsureResult(None, locator.envPath, locator.localPath, world.secondProbes);
          var res := Metadata.Resolve(first, second, world.ytDlpInfo, world.ytdlInfo);
          reply == StreamingReply(res, a.bitrate, world.urlId, sanitize) &&
          (reply.Streaming? ==>
            conv != null && fresh(conv) && conv.State() == Pipeline.Initial &&
            conv.hasProcess == res.path.Some?) &&
          (reply.HeaderRefused? ==> conv == null) &&
          locator.cached == res.path &&
          (old(locator.cached).None? ==>
            locator.probed == old(locator.probed) +
              Extractor.Probe(locator.envPath, locator.localPath, world.firstProbes).tried +
              (if first.None? && world.ytdlInfo.None?
               then Extractor.Probe(locator.envPath, locator.localPath, world.secondProbes).tried
               else []))
      ensures old(locator.cached).Some? ==> locator.cached == old(locator.cached) && locator.probed == old(locator.probed)
    {
      var a := Admission.Admit(url, parsedHost, bitrate);
      if a.Rejected? {
        reply, conv := Refused(a.status, a.error), null;
        return;
      }
      var path, info := FetchInfo(world);
      var tags := Metadata.Normalize(info, world.urlId);
      var fileName := FileNaming.FileName(tags, sanitize);
      var disposition := FileNaming.DispositionHeader(fileName);
      if !HeaderValueValid(disposition) {
        reply, conv := HeaderRefused(fileName), null;
        return;
      }
      reply := Streaming(AudioMpeg, disposition, a.bitrate, tags,
                         if path.Some? then YtDlpProcess else YtdlCoreStream);
      conv := new Pipeline.Conversion(path.Some?);
    }
  }
}
