/** Video metadata as the server gathers it (server.js): the field mappings
    of the two info backends, the one-fallback strategy between them, and the
    defaults that turn a possibly missing record into tag values. */
module Metadata {
  import opened JsValues

  /** The fields of the JSON that `yt-dlp -J` prints which the server reads. */
  datatype YtDlpJson = YtDlpJson(
    title: Option<string>, fulltitle: Option<string>,
    uploader: Option<string>, channel: Option<string>, id: Option<string>)

  /** `videoDetails.author` of ytdl-core's answer. */
  datatype Author = Author(name: Option<string>)

  /** The `videoDetails` fields of ytdl-core's answer that the server reads. */
  datatype YtdlDetails = YtdlDetails(
    title: Option<string>, author: Option<Author>,
    ownerChannelName: Option<string>, videoId: Option<string>)

  /** ytdl-core's `getInfo` answer; `videoDetails` may be absent. */
  datatype YtdlInfo = YtdlInfo(videoDetails: Option<YtdlDetails>)

  /** The common record both mappings produce. */
  datatype VideoInfo = VideoInfo(
    title: Option<string>, uploader: Option<string>,
    channel: Option<string>, id: Option<string>)

  /** `getVideoInfoYtDlp`'s mapping of the parsed JSON. */
  function FromYtDlp(d: YtDlpJson): (v: VideoInfo)
    ensures v.title == Or(d.title, d.fulltitle)
    ensures v.uploader == Or(d.uploader, d.channel)
    ensures v.channel == Or(d.channel, d.uploader)
    ensures v.id == d.id
    ensures Truthy(v.uploader) <==> Truthy(v.channel)
  {
    VideoInfo(Or(d.title, d.fulltitle), Or(d.uploader, d.channel), Or(d.channel, d.uploader), d.id)
  }

  /** `v.author && v.author.name`. */
  function AuthorName(v: YtdlDetails): Option<string>
  {
    match v.author
    case None => None
    case Some(a) => a.name
  }

  /** `getVideoInfoYtdl`'s mapping; missing `videoDetails` reads as `{}`. */
  function FromYtdl(info: YtdlInfo): (v: VideoInfo)
    ensures info.videoDetails.None? ==> v == VideoInfo(None, None, None, None)
    ensures info.videoDetails.Some? ==>
              var d := info.videoDetails.value;
              v.title == d.title && v.uploader == AuthorName(d) &&
              v.channel == Or(d.ownerChannelName, AuthorName(d)) && v.id == d.videoId
  {
    var d := info.videoDetails.GetOr(YtdlDetails(None, None, None, None));
    VideoInfo(d.title, AuthorName(d), Or(d.ownerChannelName, AuthorName(d)), d.videoId)
  }

  // ---------------------------------------------------------------------
  // Fallback between the two info backends

  datatype InfoBackend = YtDlpInfo | YtdlCoreInfo

  /** Which backends were asked, in order, the record obtained (`None` is
      `info = null`), and the extractor path the handler holds afterwards. */
  datatype Resolution = Resolution(attempts: seq<InfoBackend>, info: Option<VideoInfo>, path: Option<string>)

  /** Did backend `b` answer? `ytDlp`/`ytdl` are what each backend would give
      for this URL (`None`: it threw, or its output did not parse). */
  predicate Answered(b: InfoBackend, ytDlp: Option<YtDlpJson>, ytdl: Option<YtdlInfo>)
  {
    match b
    case YtDlpInfo => ytDlp.Some?
    case YtdlCoreInfo => ytdl.Some?
  }

  /** The record a backend's answer maps to. */
  function Mapped(b: InfoBackend, ytDlp: Option<YtDlpJson>, ytdl: Option<YtdlInfo>): VideoInfo
    requires Answered(b, ytDlp, ytdl)
  {
    match b
    case YtDlpInfo => FromYtDlp(ytDlp.value)
    case YtdlCoreInfo => FromYtdl(ytdl.value)
  }

  function Other(b: InfoBackend): InfoBackend
  {
    if b == YtDlpInfo then YtdlCoreInfo else YtDlpInfo
  }

  /** The metadata block of `POST /api/convert`. `firstPath` is the extractor
      path found before it; `secondPath` what a second `ensureYtDlp` returns,
      which is consulted only when the first attempt used ytdl-core and failed. */
  function Resolve(firstPath: Option<string>, secondPath: Option<string>,
                   ytDlp: Option<YtDlpJson>, ytdl: Option<YtdlInfo>): (r: Resolution)
    ensures 1 <= |r.attempts| <= 2
    ensures r.attempts[0] == (if firstPath.Some? then YtDlpInfo else YtdlCoreInfo)
    ensures |r.attempts| == 2 ==> r.attempts[1] == Other(r.attempts[0])
    ensures |r.attempts| == 2 <==> !Answered(r.attempts[0], ytDlp, ytdl) && (firstPath.Some? || secondPath.Some?)
    ensures |r.attempts| == 1 ==>
              Answered(r.attempts[0], ytDlp, ytdl) || (firstPath.None? && secondPath.None?)
    ensures var last := r.attempts[|r.attempts| - 1];
              (r.info.Some? <==> Answered(last, ytDlp, ytdl)) &&
              (r.info.Some? ==> r.info.value == Mapped(last, ytDlp, ytdl))
    ensures firstPath.Some? ==> r.path == firstPath
    ensures firstPath.None? ==> r.path == (if ytdl.Some? then None else secondPath)
  {
    if firstPath.Some? then
      if ytDlp.Some? then Resolution([YtDlpInfo], Some(FromYtDlp(ytDlp.value)), firstPath)
      else if ytdl.Some? then Resolution([YtDlpInfo, YtdlCoreInfo], Some(FromYtdl(ytdl.value)), firstPath)
      else Resolution([YtDlpInfo, YtdlCoreInfo], None, firstPath)
    else
      if ytdl.Some? then Resolution([YtdlCoreInfo], Some(FromYtdl(ytdl.value)), None)
      else if secondPath.None? then Resolution([YtdlCoreInfo], None, None)
      else if ytDlp.Some? then Resolution([YtdlCoreInfo, YtDlpInfo], Some(FromYtDlp(ytDlp.value)), secondPath)
      else Resolution([YtdlCoreInfo, YtDlpInfo], None, secondPath)
  }

  /** Metadata is lost only when every backend that could be asked failed. */
  lemma NoInfoOnlyWhenAllFail(firstPath: Option<string>, secondPath: Option<string>,
                              ytDlp: Option<YtDlpJson>, ytdl: Option<YtdlInfo>)
    requires Resolve(firstPath, secondPath, ytDlp, ytdl).info.None?
    ensures ytdl.None?
    ensures ytDlp.None? || (firstPath.None? && secondPath.None?)
  {
  }

  // ---------------------------------------------------------------------
  // Defaults: title, artist, id

  /** The tag values and the id the file name is built from. */
  datatype Tags = Tags(title: string, artist: string, id: string)

  const DefaultTitle := "audio"
  const DefaultArtist := "YouTube"

  /** `(info && info.title) || 'audio'`, `(info && (info.uploader || info.channel)) || 'YouTube'`
      and `(info && info.id) || extractIdFromUrl(url) || ''`, where `urlId` is
      what `extractIdFromUrl` returns for the URL. */
  function Normalize(info: Option<VideoInfo>, urlId: string): (t: Tags)
    ensures t.title != "" && t.artist != ""
    ensures info.None? ==> t == Tags(DefaultTitle, DefaultArtist, urlId)
    ensures info.Some? ==>
              t.title == FirstTruthy([info.value.title], DefaultTitle) &&
              t.artist == FirstTruthy([info.value.uploader, info.value.channel], DefaultArtist) &&
              t.id == (if Truthy(info.value.id) then info.value.id.value else urlId)
  {
    match info
    case None => Tags(DefaultTitle, DefaultArtist, urlId)
    case Some(v) =>
      var title := if Truthy(v.title) then v.title.value else DefaultTitle;
      var artistField := Or(v.uploader, v.channel);
      var artist := if Truthy(artistField) then artistField.value else DefaultArtist;
      var id := if Truthy(v.id) then v.id.value else urlId;
      Tags(title, artist, id)
  }

  /** Through the yt-dlp mapping: the title is `title || fulltitle || 'audio'` and
      the artist `uploader || channel || 'YouTube'` of the raw JSON. */
  lemma {:induction false} YtDlpTags(d: YtDlpJson, urlId: string)
    ensures var t := Normalize(Some(FromYtDlp(d)), urlId);
      t.title == FirstTruthy([d.title, d.fulltitle], DefaultTitle) &&
      t.artist == FirstTruthy([d.uploader, d.channel], DefaultArtist) &&
      t.id == (if Truthy(d.id) then d.id.value else urlId)
  {
    var v := FromYtDlp(d);
    assert [d.title, d.fulltitle][1..] == [d.fulltitle];
    assert [d.uploader, d.channel][1..] == [d.channel];
    assert [v.uploader, v.channel][1..] == [v.channel];
    assert [v.title][1..] == [];
    assert [v.channel][1..] == [];
    assert [d.fulltitle][1..] == [];
    assert [d.channel][1..] == [];
  }

  /** Through the ytdl-core mapping: the artist is `author.name || ownerChannelName || 'YouTube'`. */
  lemma {:induction false} YtdlArtist(d: YtdlDetails, urlId: string)
    ensures Normalize(Some(FromYtdl(YtdlInfo(Some(d)))), urlId).artist ==
              FirstTruthy([AuthorName(d), d.ownerChannelName], DefaultArtist)
  {
    var v := FromYtdl(YtdlInfo(Some(d)));
    assert [AuthorName(d), d.ownerChannelName][1..] == [d.ownerChannelName];
    assert [d.ownerChannelName][1..] == [];
    assert [v.uploader, v.channel][1..] == [v.channel];
    assert [v.channel][1..] == [];
  }
}
