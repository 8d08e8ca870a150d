/** The red/grey border on the URL field (public/app.js): a quick
    substring test while typing, independent of the server's host allowlist. */
module ClientUrlHint {
  import opened JsValues
  import opened JsStrings
  import UrlPolicy

  const RedBorder := "border-red-300"
  const GrayBorder := "border-gray-300"

  /** `url && !url.includes('youtube.com') && !url.includes('youtu.be')` on the
      trimmed input. */
  predicate ShowsWarning(value: string)
  {
    var url := Trim(value);
    url != "" && !Includes(url, "youtube.com") && !Includes(url, "youtu.be")
  }

  /** What the hint means: the trimmed text is non-empty and neither keyword
      occurs anywhere in it. */
  lemma WarningMeaning(value: string)
    ensures var url := Trim(value);
      ShowsWarning(value) <==>
        url != "" && forall i :: 0 <= i <= |url| ==> !OccursAt(url, "youtube.com", i) && !OccursAt(url, "youtu.be", i)
  {
  }

  /** The hint tests the whole text, so YouTube's domain anywhere in it, even in
      the path of a foreign host, silences the warning; the server still refuses
      that host. */
  lemma HintLooserThanServer(v: string)
    requires v == "https://evil.com/youtube.com"
    ensures !ShowsWarning(v)
    ensures !UrlPolicy.IsYouTubeUrl(Some("evil.com"))
  {
    assert v[0] == 'h' && v[|v| - 1] == 'm';
    TrimKeepsSolidEnds(v);
    assert v[17..28] == "youtube.com";
    assert OccursAt(v, "youtube.com", 17);
    WarningMeaning(v);
    UrlPolicy.ForeignHostRefused();
  }

  /** Neither keyword occurs in this embed address: the only `y` begins
      `youtube-nocookie`, where a `-` stands in place of the keywords' `.`. */
  lemma NoKeywordInNoCookieUrl(v: string)
    requires v == "https://www.youtube-nocookie.com/embed/x"
    ensures forall i :: 0 <= i <= |v| ==> !OccursAt(v, "youtube.com", i) && !OccursAt(v, "youtu.be", i)
  {
    assert v == ['h', 't', 't', 'p', 's', ':', '/', '/', 'w', 'w', 'w', '.',
                 'y', 'o', 'u', 't', 'u', 'b', 'e', '-', 'n', 'o', 'c', 'o', 'o', 'k', 'i', 'e',
                 '.', 'c', 'o', 'm', '/', 'e', 'm', 'b', 'e', 'd', '/', 'x'];
    assert forall j :: 0 <= j < |v| && v[j] == 'y' ==> j == 12;
    forall i | 0 <= i <= |v| ensures !OccursAt(v, "youtube.com", i) && !OccursAt(v, "youtu.be", i) {
      if i + 8 <= |v| {
        assert v[i..i + 8][0] == v[i];
        assert v[i..i + 8][5] == v[i + 5];
        assert i + 11 <= |v| ==> v[i..i + 11][7] == v[i + 7];
      }
    }
  }

  /** The hint does not know the nocookie domain: an embed address whose host
      the server accepts is flagged red. (`www.youtube-nocookie.com` is the host
      the URL parser yields for that address.) */
  lemma NoCookieAddressFlagged(v: string)
    requires v == "https://www.youtube-nocookie.com/embed/x"
    ensures ShowsWarning(v)
    ensures UrlPolicy.IsYouTubeUrl(Some("www.youtube-nocookie.com"))
  {
    assert v[0] == 'h' && v[|v| - 1] == 'x';
    TrimKeepsSolidEnds(v);
    NoKeywordInNoCookieUrl(v);
    WarningMeaning(v);
    UrlPolicy.NoCookieHostAccepted();
  }

  /** The URL input element's class list. */
  class UrlField {
    var classes: set<string>

    constructor (classes: set<string>)
      ensures this.classes == classes
    {
      this.classes := classes;
    }

    /** The `input` handler: exactly one of the two border classes ends up set,
        red exactly when the warning applies; other classes are kept. */
    method OnInput(value: string)
      modifies this
      ensures RedBorder in classes <==> ShowsWarning(value)
      ensures GrayBorder in classes <==> !ShowsWarning(value)
      ensures classes - {RedBorder, GrayBorder} == old(classes) - {RedBorder, GrayBorder}
    {
      var url := Trim(value);
      if url != "" && !Includes(url, "youtube.com") && !Includes(url, "youtu.be") {
        classes := classes + {RedBorder};
        classes := classes - {GrayBorder};
      } else {
        classes := classes - {RedBorder};
        classes := classes + {GrayBorder};
      }
    }
  }
}
