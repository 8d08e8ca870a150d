/** The page's submit handler (public/app.js): reading the file name out
    of `Content-Disposition`, choosing the error message, the status line,
    and the button that is disabled during a conversion and restored after.
    `fetch`, the Blob download and the DOM are outside the model. */
module ClientDownload {
  import opened JsValues
  import opened JsStrings
  import FileNaming

  // ---------------------------------------------------------------------
  // /filename=\"?([^\";]+)\"?/i

  const Key := "filename="
  const FallbackName := "audio.mp3"

  /** The characters the capture group `[^";]` does not take. */
  predicate Stops(c: char)
  {
    c == '"' || c == ';'
  }

  predicate Clean(s: string)
  {
    forall i :: 0 <= i < |s| ==> !Stops(s[i])
  }

  /** `filename=` occurs at `i`, ignoring ASCII case (the `i` flag without `u`
      folds no other character onto these letters). */
  predicate KeyAt(s: string, i: nat)
  {
    i + |Key| <= |s| && Lower(s[i..i + |Key|]) == Key
  }

  /** The longest run of characters other than `"` and `;` starting at `k`. */
  function RunFrom(s: string, k: nat): (r: string)
    requires k <= |s|
    ensures k + |r| <= |s| && r == s[k..k + |r|]
    ensures Clean(r)
    ensures k + |r| == |s| || Stops(s[k + |r|])
    decreases |s| - k
  {
    if k < |s| && !Stops(s[k]) then [s[k]] + RunFrom(s, k + 1) else []
  }

  /** The capture when the key is at `i`: an optional `"` is skipped first. If the
      quote is taken and no run follows, giving the quote back does not help,
      since the run cannot start with a quote. */
  function CaptureAt(s: string, i: nat): string
    requires KeyAt(s, i)
  {
    var j := i + |Key|;
    RunFrom(s, if j < |s| && s[j] == '"' then j + 1 else j)
  }

  /** The regular expression matches starting at `i`. */
  predicate MatchesAt(s: string, i: nat)
  {
    KeyAt(s, i) && CaptureAt(s, i) != ""
  }

  /** `i` is the leftmost position at or after `from` where the expression matches. */
  predicate LeftmostAt(s: string, from: nat, i: nat)
  {
    from <= i <= |s| && MatchesAt(s, i) && forall j: nat :: from <= j < i ==> !MatchesAt(s, j)
  }

  /** `exec` from position `from`: the index of the leftmost match, if any. */
  function MatchFrom(s: string, from: nat): (r: Option<nat>)
    requires from <= |s|
    ensures r.None? ==> forall i: nat :: from <= i <= |s| ==> !MatchesAt(s, i)
    ensures r.Some? ==> LeftmostAt(s, from, r.value)
    decreases |s| - from
  {
    if MatchesAt(s, from) then Some(from)
    else if from == |s| then None
    else MatchFrom(s, from + 1)
  }

  /** `const disp = header || ''; match ? match[1] : 'audio.mp3'`. */
  function FileNameFromDisposition(header: Option<string>): (name: string)
    ensures name != "" && Clean(name)
    ensures var disp := header.GetOr("");
      (name == FallbackName && forall i: nat :: i <= |disp| ==> !MatchesAt(disp, i)) ||
      exists i: nat :: LeftmostAt(disp, 0, i) && name == CaptureAt(disp, i)
  {
    var disp := header.GetOr("");
    match MatchFrom(disp, 0)
    case Some(i) => CaptureAt(disp, i)
    case None => FallbackName
  }

  /** Positions without a match do not change where the scan ends up. */
  lemma {:induction false} SkipNonMatches(s: string, from: nat, to: int)
    requires from <= to <= |s|
    requires forall j: nat :: from <= j < to ==> !MatchesAt(s, j)
    ensures MatchFrom(s, from) == MatchFrom(s, to)
    decreases |s| - from
  {
    if from < to {
      SkipNonMatches(s, from + 1, to);
    }
  }

  /** The run after `k` is exactly `f` when `f` is clean and a stop follows it. */
  lemma RunIsExactly(s: string, k: nat, f: string)
    requires k + |f| < |s| && s[k..k + |f|] == f && Clean(f) && Stops(s[k + |f|])
    ensures RunFrom(s, k) == f
  {
    var r := RunFrom(s, k);
    assert forall m :: 0 <= m < |f| ==> s[k + m] == f[m] && !Stops(s[k + m]);
    assert forall m :: 0 <= m < |r| ==> s[k + m] == r[m] && !Stops(s[k + m]);
  }

  /** Where the key sits in the server's header: not before position 12, at
      position 12, followed by the opening quote, the name and the closing quote. */
  lemma HeaderLayout(fileName: string)
    ensures var h := FileNaming.DispositionHeader(fileName);
      (forall j: nat :: j < 12 ==> !KeyAt(h, j)) && KeyAt(h, 12) && h[21] == '"' &&
      h[22..22 + |fileName|] == fileName && h[22 + |fileName|] == '"'
  {
    var prefix := ['a', 't', 't', 'a', 'c', 'h', 'm', 'e', 'n', 't', ';', ' ',
                   'f', 'i', 'l', 'e', 'n', 'a', 'm', 'e', '=', '"'];
    assert prefix == "attachment; filename=\"";
    var h := FileNaming.DispositionHeader(fileName);
    assert h == prefix + fileName + "\"";
    assert forall m :: 0 <= m < 20 ==> h[m] == prefix[m] && prefix[m] != '=';
    forall j: nat | j < 12 ensures !KeyAt(h, j) {
      assert Lower(h[j..j + |Key|])[8] == LowerChar(h[j + 8]);
    }
    assert h[12..21] == prefix[12..21];
    assert Lower(prefix[12..21]) == Key;
  }

  /** Round trip with the server's header: for a non-empty file name without
      `"` or `;`, the page reads back exactly the name the server sent. */
  lemma {:induction false} DispositionRoundTrip(fileName: string)
    requires fileName != "" && Clean(fileName)
    ensures FileNameFromDisposition(Some(FileNaming.DispositionHeader(fileName))) == fileName
  {
    var h := FileNaming.DispositionHeader(fileName);
    HeaderLayout(fileName);
    RunIsExactly(h, 22, fileName);
    assert MatchesAt(h, 12);
    SkipNonMatches(h, 0, 12);
  }

  /** A `;` in the file name cuts it short on the page: the capture stops there. */
  lemma {:induction false} SemicolonTruncates(before: string, after: string)
    requires before != "" && Clean(before)
    ensures FileNameFromDisposition(Some(FileNaming.DispositionHeader(before + ";" + after))) == before
  {
    var f := before + ";" + after;
    var h := FileNaming.DispositionHeader(f);
    HeaderLayout(f);
    assert h[22..22 + |before|] == before by {
      assert h[22..22 + |f|][..|before|] == f[..|before|] == before;
    }
    assert h[22 + |before|] == ';' by {
      assert h[22..22 + |f|][|before|] == f[|before|] == ';';
    }
    RunIsExactly(h, 22, before);
    assert MatchesAt(h, 12);
    SkipNonMatches(h, 0, 12);
  }

  /** With no header at all the download is called `audio.mp3`. */
  lemma MissingHeaderFallsBack()
    ensures FileNameFromDisposition(None) == FallbackName
  {
  }

  // ---------------------------------------------------------------------
  // Error message of a non-OK response

  /** The JSON body of an error response; `None` when it does not parse, which
      the page reads as `{}`. */
  datatype Problem = Problem(error: Option<string>)

  const ServerErrorPrefix := "Server error: "

  /** `problem.error || `Server error: ${resp.status}``. */
  function ErrorMessage(status: nat, body: Option<Problem>): (msg: string)
    ensures msg != ""
    ensures body.Some? && Truthy(body.value.error) ==> msg == body.value.error.value
    ensures !(body.Some? && Truthy(body.value.error)) ==> msg == ServerErrorPrefix + Decimal(status)
  {
    var error := if body.Some? then body.value.error else None;
    if Truthy(error) then error.value else ServerErrorPrefix + Decimal(status)
  }

  /** Without an `error` field, the status can be read back from the message. */
  lemma StatusRecoverable(status: nat, body: Option<Problem>)
    requires !(body.Some? && Truthy(body.value.error))
    ensures var msg := ErrorMessage(status, body);
      |msg| > |ServerErrorPrefix| && msg[..|ServerErrorPrefix|] == ServerErrorPrefix &&
      (forall i :: |ServerErrorPrefix| <= i < |msg| ==> IsDigit(msg[i])) &&
      ParseDecimal(msg[|ServerErrorPrefix|..]) == status
  {
    var msg := ErrorMessage(status, body);
    assert msg[|ServerErrorPrefix|..] == Decimal(status);
    ParseDecimalOfDecimal(status);
  }

  // ---------------------------------------------------------------------
  // The submit handler

  /** How a conversion ends: something threw (`fetch`, reading the Blob) with
      this message, the server answered non-OK, or the file was delivered.
      `disposition` is `Content-Disposition` as the browser exposes it to the
      page, where `None` is a `null` from `headers.get`. */
  datatype Outcome =
    | Thrown(message: string)
    | NotOk(status: nat, body: Option<Problem>)
    | Delivered(disposition: Option<string>)

  const StartingText := "Starting conversion..."
  const ConvertingText := "Converting..."
  const DefaultFailure := "Conversion failed"
  const DoneMark := " \U{2705} Download started: "
  const FailMark := "\U{274C} "

  /** The status line's text and whether it is shown as an error. */
  datatype StatusView = StatusView(text: string, isError: bool)

  /** The final `setStatus` call of the handler. */
  function FinalStatus(o: Outcome): (v: StatusView)
    ensures v.isError <==> !o.Delivered?
    ensures o.Delivered? ==> v.text == DoneMark + FileNameFromDisposition(o.disposition)
    ensures o.NotOk? ==> v.text == FailMark + ErrorMessage(o.status, o.body)
    ensures o.Thrown? ==> v.text == FailMark + (if o.message != "" then o.message else DefaultFailure)
  {
    match o
    case Delivered(disp) => StatusView(DoneMark + FileNameFromDisposition(disp), false)
    case NotOk(status, body) => StatusView(FailMark + ErrorMessage(status, body), true)
    case Thrown(m) => StatusView(FailMark + (if m != "" then m else DefaultFailure), true)
  }

  /** The form's button and status line. */
  class ConvertForm {
    var buttonDisabled: bool
    var buttonText: string
    var status: StatusView

    constructor (buttonText: string)
      ensures !buttonDisabled && this.buttonText == buttonText && status == StatusView("", false)
    {
      buttonDisabled := false;
      this.buttonText := buttonText;
      status := StatusView("", false);
    }

    /** The handler's first lines: status, remember the text, disable the button. */
    method Begin() returns (originalText: string)
      modifies this
      ensures originalText == old(buttonText)
      ensures buttonDisabled && buttonText == ConvertingText && status == StatusView(StartingText, false)
    {
      status := StatusView(StartingText, false);
      originalText := buttonText;
      buttonDisabled := true;
      buttonText := ConvertingText;
    }

    /** The `try`/`catch` outcome and the `finally` block. */
    method Finish(originalText: string, o: Outcome)
      modifies this
      ensures status == FinalStatus(o)
      ensures !buttonDisabled && buttonText == originalText
    {
      match o {
        case Delivered(disp) =>
          var fileName := FileNameFromDisposition(disp);
          status := StatusView(DoneMark + fileName, false);
        case NotOk(code, body) =>
          var message := ErrorMessage(code, body);
          status := StatusView(FailMark + message, true);
        case Thrown(m) =>
          status := StatusView(FailMark + (if m != "" then m else DefaultFailure), true);
      }
      buttonDisabled := false;
      buttonText := originalText;
    }

    /** The whole submit handler: whatever the outcome, the button ends enabled
        with its original text. */
    method Submit(o: Outcome)
      modifies this
      ensures !buttonDisabled && buttonText == old(buttonText)
      ensures status == FinalStatus(o)
    {
      var originalText := Begin();
      Finish(originalText, o);
    }
  }
}
