/** The download's file name and its `Content-Disposition` header
    (server.js). `sanitize-filename` is outside the model: it is a parameter,
    and nothing is assumed about what it strips. */
module FileNaming {
  import opened JsStrings
  import Metadata

  const Separator := " - "
  const Extension := ".mp3"
  const FallbackBase := "audio"

  /** `` `${title}${artist ? ' - ' + artist : ''}` ``, before trimming. */
  function Stem(title: string, artist: string): (s: string)
    ensures artist != "" ==> s == title + Separator + artist
    ensures artist == "" ==> s == title
  {
    if artist != "" then title + Separator + artist else title
  }

  /** `sanitize(stem.trim()) || 'audio'`. */
  function BaseName(title: string, artist: string, sanitize: string -> string): (b: string)
    ensures b != ""
    ensures sanitize(Trim(Stem(title, artist))) != "" ==> b == sanitize(Trim(Stem(title, artist)))
    ensures sanitize(Trim(Stem(title, artist))) == "" ==> b == FallbackBase
  {
    var s := sanitize(Trim(Stem(title, artist)));
    if s != "" then s else FallbackBase
  }

  /** The id suffix: `` ` [${id}]` `` when the id is non-empty, nothing otherwise. */
  function IdSuffix(id: string): string
  {
    if id != "" then " [" + id + "]" else ""
  }

  /** `` `${baseName}${id ? ' [' + id + ']' : ''}.mp3` ``: the string handed to the
      second `sanitize`. */
  function Unsanitized(baseName: string, id: string): (s: string)
    ensures EndsWith(s, Extension)
    ensures |baseName| <= |s| && s[..|baseName|] == baseName
  {
    var s := baseName + IdSuffix(id) + Extension;
    assert s[|s| - |Extension|..] == Extension;
    assert s[..|baseName|] == baseName;
    s
  }

  /** The final file name. */
  function FileName(t: Metadata.Tags, sanitize: string -> string): string
  {
    sanitize(Unsanitized(BaseName(t.title, t.artist, sanitize), t.id))
  }

  /** The header value the server sends: `` `attachment; filename="${fileName}"` ``. */
  function DispositionHeader(fileName: string): (h: string)
    ensures |h| == |fileName| + 23
  {
    "attachment; filename=\"" + fileName + "\""
  }

  /** What follows the base name is exactly `.mp3` iff the id is empty, and
      ` [id].mp3` otherwise. */
  lemma IdSuffixIffNonEmpty(baseName: string, id: string)
    ensures var s := Unsanitized(baseName, id);
      (s[|baseName|..] == Extension <==> id == "") &&
      (id != "" ==> s[|baseName|..] == " [" + id + "]" + Extension)
  {
    var s := Unsanitized(baseName, id);
    assert s[|baseName|..] == IdSuffix(id) + Extension;
  }

  /** For one base name, different ids give different strings: the id can be
      read back from what the second `sanitize` receives. */
  lemma {:induction false} UnsanitizedInjective(baseName: string, id1: string, id2: string)
    requires Unsanitized(baseName, id1) == Unsanitized(baseName, id2)
    ensures id1 == id2
  {
    var s := Unsanitized(baseName, id1);
    assert s[|baseName|..] == IdSuffix(id1) + Extension;
    assert s[|baseName|..] == IdSuffix(id2) + Extension;
    assert IdSuffix(id1) == IdSuffix(id2) by {
      var a, b := IdSuffix(id1) + Extension, IdSuffix(id2) + Extension;
      assert a == b;
      assert |IdSuffix(id1)| == |IdSuffix(id2)|;
      assert IdSuffix(id1) == a[..|IdSuffix(id1)|];
      assert IdSuffix(id2) == b[..|IdSuffix(id2)|];
    }
    if id1 != "" && id2 != "" {
      assert id1 == IdSuffix(id1)[2..|IdSuffix(id1)| - 1];
      assert id2 == IdSuffix(id2)[2..|IdSuffix(id2)| - 1];
    }
  }

  /** With a non-empty artist (as the normalised tags always have) and title
      and artist that do not begin or end with white space, `trim` changes
      nothing: `sanitize` receives `title + " - " + artist`. */
  lemma StemUntrimmedForSolidTags(title: string, artist: string)
    requires title != "" && artist != ""
    requires !IsJsSpace(title[0]) && !IsJsSpace(artist[|artist| - 1])
    ensures Trim(Stem(title, artist)) == title + Separator + artist
  {
    var s := title + Separator + artist;
    assert s[0] == title[0];
    assert s[|s| - 1] == artist[|artist| - 1];
    TrimKeepsSolidEnds(s);
  }

  /** The separator's dash survives `trim`, so with an artist the trimmed
      stem is never empty, whatever the title is. */
  lemma StemNeverTrimsAway(title: string, artist: string)
    requires artist != ""
    ensures Trim(Stem(title, artist)) != ""
  {
    var s := title + Separator + artist;
    assert s[|title| + 1] == '-';
    TrimKeepsNonSpace(s, |title| + 1);
  }

  /** The file name when `sanitize` leaves both strings it is given alone (a
      title and artist without characters it strips): the trimmed
      `title - artist`, the id suffix, and `.mp3`. */
  lemma FileNameWhenNothingStripped(t: Metadata.Tags, sanitize: string -> string)
    requires t.artist != ""
    requires var stem := Trim(t.title + Separator + t.artist);
      sanitize(stem) == stem && sanitize(stem + IdSuffix(t.id) + Extension) == stem + IdSuffix(t.id) + Extension
    ensures FileName(t, sanitize) == Trim(t.title + Separator + t.artist) + IdSuffix(t.id) + Extension
  {
    StemNeverTrimsAway(t.title, t.artist);
  }
}
