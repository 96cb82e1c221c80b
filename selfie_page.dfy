// The selfie step: the cookie gate on entry, choosing a photo, the Continue
// handler that asks for the analysis and the outfit image, and the back
// button. The two services are functions from the request to its result.

module SelfiePage {
  import opened Wrappers
  import opened Strings
  import opened Browser

  // ---------------------------------------------------------------------
  // The image-prompt line of the analysis.
  // ---------------------------------------------------------------------

  const PromptMarker: string := "**Image Prompt:**"

  /** Prompts shorter than this are refused. */
  const MinPromptLength: nat := 10

  /** Whether a string is made of line terminators only. */
  predicate AllLineTerminators(s: string) {
    forall k :: 0 <= k < |s| ==> IsLineTerminator(s[k])
  }

  /** The characters up to the first line terminator: what `.+` can reach. */
  function RestOfLine(s: string): (r: string)
    ensures |r| <= |s|
  {
    if s == [] || IsLineTerminator(s[0]) then [] else [s[0]] + RestOfLine(s[1..])
  }

  /** The first capture of the marker followed by `\s*(.+)`, trimmed, or None
      when the pattern does not match. `\s*` takes all white space after the
      first marker; when nothing but white space follows, backtracking hands
      one of those characters to `.+` if it is not a line terminator, and the
      trimmed capture is then empty. */
  function ExtractImagePrompt(result: string): (r: Option<string>)
    ensures r.Some? ==> IsTrimmed(r.value)
  {
    CaptureAfterFirst(result, PromptMarker)
  }

  /** The capture after the first occurrence of `marker`, or None without one. */
  function CaptureAfterFirst(result: string, marker: string): (r: Option<string>)
    requires marker != []
    ensures r.Some? ==> IsTrimmed(r.value)
  {
    match IndexOf(result, marker)
    case None => None
    case Some(i) => CaptureAfterMarker(result[i + |marker|..])
  }

  /** The trimmed capture of `\s*(.+)` matched at the start of `after`. */
  function CaptureAfterMarker(after: string): (r: Option<string>)
    ensures r.Some? ==> IsTrimmed(r.value)
  {
    var body := TrimStart(after);
    if body != [] then Some(Trim(RestOfLine(body)))
    else if AllLineTerminators(after) then None
    else Some("")
  }

  /**
    * `imagePrompt && imagePrompt.length >= 10`: `p.value != ""` is the truthiness test
    * `imagePrompt`, which the length bound already implies.
    */
  predicate PromptAccepted(p: Option<string>) {
    p.Some? && p.value != "" && |p.value| >= MinPromptLength
  }

  // ---------------------------------------------------------------------
  // The Continue handler as a function of its inputs.
  // ---------------------------------------------------------------------

  /** What a `fetch` to one of the services gives: the field read from an ok
      response, the text of a response that is not ok, or the message of
      what it threw. */
  datatype Fetched = Ok(value: string) | NotOk(errorText: string) | FetchThrew(message: string)

  /** The analysis service, called with the photo, the age and the style. */
  type PromptService = (string, Option<string>, Option<string>) -> Fetched

  /** The image service, called with the image prompt. */
  type ImageService = string -> Fetched

  const PromptRejected: string := "Could not generate style prompt. Please try again."
  const PromptServicePrefix: string := "Gemini API failed: "
  const ImageServicePrefix: string := "Image generation/upload failed: "

  /** The message shown for a caught error: its message, or a fallback when empty. */
  function ErrorMessage(message: string): (r: string)
    ensures r != ""
    ensures message != "" ==> r == message
  {
    if message == "" then "Unknown error" else message
  }

  /** What the handler writes to localStorage on success. */
  datatype StoredReport = StoredReport(reportResult: string, generatedImageUrl: string)

  /** The effect of one press of Continue: the routes pushed, what is stored,
      and the loading flag afterwards. */
  datatype ContinueEffect = ContinueEffect(routes: seq<Route>, stored: Option<StoredReport>, loading: bool)

  function LoadingRoute(age: Option<string>, style: Option<string>): Route {
    Loading(Or(age, ""), Or(style, ""), "/report")
  }

  function ContinueOutcome(imageSrc: Option<string>, age: Option<string>, style: Option<string>,
                           analyze: PromptService, generate: ImageService, loading: bool): ContinueEffect
  {
    if !Truthy(imageSrc) then ContinueEffect([], None, loading)
    else
      var e := AnalysisOutcome(analyze(imageSrc.value, age, style), generate);
      ContinueEffect([LoadingRoute(age, style)] + e.routes, e.stored, e.loading)
  }

  /** The effect once the loading page is pushed and the analysis has
      answered; its routes are those pushed after the loading page. */
  function AnalysisOutcome(analyzed: Fetched, generate: ImageService): ContinueEffect {
    match analyzed
    case FetchThrew(m) => ContinueEffect([ErrorPage(ErrorMessage(m))], None, false)
    case NotOk(t) => ContinueEffect([ErrorPage(ErrorMessage(PromptServicePrefix + t))], None, false)
    case Ok(result) => PromptOutcome(result, ExtractImagePrompt(result), generate)
  }

  /** The effect once the prompt is taken from the analysis text. */
  function PromptOutcome(result: string, prompt: Option<string>, generate: ImageService): ContinueEffect {
    if !PromptAccepted(prompt) then ContinueEffect([ErrorPage(PromptRejected)], None, true)
    else ImageOutcome(result, generate(prompt.value))
  }

  /** The effect once the image service has answered. */
  function ImageOutcome(result: string, generated: Fetched): ContinueEffect {
    match generated
    case FetchThrew(m) => ContinueEffect([ErrorPage(ErrorMessage(m))], None, false)
    case NotOk(t) => ContinueEffect([ErrorPage(ErrorMessage(ImageServicePrefix + t))], None, false)
    case Ok(url) => ContinueEffect([Path("/report")], Some(StoredReport(result, url)), true)
  }

  /** localStorage after an effect. */
  function StoreEffect(local: map<string, string>, stored: Option<StoredReport>): map<string, string> {
    if stored.None? then local
    else local["reportResult" := stored.value.reportResult]["generatedImageUrl" := stored.value.generatedImageUrl]
  }

  /** The entry gate: off to `/age` unless the admin flag is set or both the
      age and the style cookies are there. */
  predicate GateRedirects(session: map<string, string>, cookies: map<string, string>) {
    !SkipsOnboarding(session)
      && (!Truthy(Lookup(cookies, "userAge")) || !Truthy(Lookup(cookies, "preferredStyle")))
  }

  // ---------------------------------------------------------------------
  // The page.
  // ---------------------------------------------------------------------

  class SelfiePageState {
    const browser: BrowserState
    var userSelectedAge: Option<string>
    var userPreferredStyle: Option<string>
    var imageSrc: Option<string>
    /** The chosen file, by name. */
    var imageFile: Option<string>
    var loading: bool

    constructor(b: BrowserState)
      ensures browser == b
      ensures userSelectedAge == None && userPreferredStyle == None
      ensures imageSrc == None && imageFile == None && !loading
    {
      browser := b;
      userSelectedAge, userPreferredStyle := None, None;
      imageSrc, imageFile := None, None;
      loading := false;
    }

    /** The effect run on entry. */
    method Mount()
      modifies this, browser
      ensures var redirect := GateRedirects(old(browser.session), old(browser.cookies));
        var age, style := Lookup(old(browser.cookies), "userAge"), Lookup(old(browser.cookies), "preferredStyle");
        && browser.navigations == old(browser.navigations) + (if redirect then [Path("/age")] else [])
        && userSelectedAge == (if !redirect && Truthy(age) then age else old(userSelectedAge))
        && userPreferredStyle == (if !redirect && Truthy(style) then style else old(userPreferredStyle))
      ensures browser.cookies == old(browser.cookies) && browser.local == old(browser.local)
      ensures browser.session == old(browser.session)
      ensures imageSrc == old(imageSrc) && imageFile == old(imageFile) && loading == old(loading)
    {
      var skip := browser.Session("skipAdminRedirect") == Some("true");
      var ageFromCookie := browser.Cookie("userAge");
      var styleFromCookie := browser.Cookie("preferredStyle");
      if !skip && (!Truthy(ageFromCookie) || !Truthy(styleFromCookie)) {
        browser.Navigate(Path("/age"));
        return;
      }
      if Truthy(ageFromCookie) {
        userSelectedAge := ageFromCookie;
      }
      if Truthy(styleFromCookie) {
        userPreferredStyle := styleFromCookie;
      }
    }

    /** The file input's change handler; nothing happens without a file. */
    method SelectFile(file: Option<string>)
      modifies this
      ensures imageFile == (if file.Some? then file else old(imageFile))
      ensures imageSrc == old(imageSrc) && loading == old(loading)
      ensures userSelectedAge == old(userSelectedAge) && userPreferredStyle == old(userPreferredStyle)
    {
      if file.None? {
        return;
      }
      imageFile := file;
    }

    /** The file reader's load handler, with the file read as a data URL. */
    method FileLoaded(dataUrl: string)
      modifies this
      ensures imageSrc == Some(dataUrl)
      ensures imageFile == old(imageFile) && loading == old(loading)
      ensures userSelectedAge == old(userSelectedAge) && userPreferredStyle == old(userPreferredStyle)
    {
      imageSrc := Some(dataUrl);
    }

    /** Continue: push the loading page, then ask for the analysis. */
    method Continue(analyze: PromptService, generate: ImageService)
      modifies this, browser
      ensures var e := ContinueOutcome(old(imageSrc), userSelectedAge, userPreferredStyle, analyze, generate, old(loading));
        && browser.navigations == old(browser.navigations) + e.routes
        && browser.local == StoreEffect(old(browser.local), e.stored)
        && loading == e.loading
      ensures browser.cookies == old(browser.cookies) && browser.session == old(browser.session)
      ensures imageSrc == old(imageSrc) && imageFile == old(imageFile)
      ensures userSelectedAge == old(userSelectedAge) && userPreferredStyle == old(userPreferredStyle)
    {
      if !Truthy(imageSrc) {
        return;
      }
      Analyze(analyze, generate);
    }

    /** Continue with a photo: set the loading flag, push the loading page,
        ask for the analysis and handle its answer. */
    method Analyze(analyze: PromptService, generate: ImageService)
      requires Truthy(imageSrc)
      modifies this, browser
      ensures var age, style := old(userSelectedAge), old(userPreferredStyle);
        var e := AnalysisOutcome(analyze(old(imageSrc).value, age, style), generate);
        && browser.navigations == old(browser.navigations) + ([LoadingRoute(age, style)] + e.routes)
        && browser.local == StoreEffect(old(browser.local), e.stored)
        && loading == e.loading
      ensures browser.cookies == old(browser.cookies) && browser.session == old(browser.session)
      ensures imageSrc == old(imageSrc) && imageFile == old(imageFile)
      ensures userSelectedAge == old(userSelectedAge) && userPreferredStyle == old(userPreferredStyle)
    {
      loading := true;
      browser.Navigate(LoadingRoute(userSelectedAge, userPreferredStyle));
      var promptRes := analyze(imageSrc.value, userSelectedAge, userPreferredStyle);
      HandleAnalysis(promptRes, generate);
      PushThenPushAll(old(browser.navigations), LoadingRoute(userSelectedAge, userPreferredStyle),
                      AnalysisOutcome(promptRes, generate).routes);
    }

    /** The `try` block after the analysis request has answered. */
    method HandleAnalysis(promptRes: Fetched, generate: ImageService)
      modifies this, browser
      ensures var e := AnalysisOutcome(promptRes, generate);
        && browser.navigations == old(browser.navigations) + e.routes
        && browser.local == StoreEffect(old(browser.local), e.stored)
        && loading == (if e.loading then old(loading) else false)
      ensures browser.cookies == old(browser.cookies) && browser.session == old(browser.session)
      ensures imageSrc == old(imageSrc) && imageFile == old(imageFile)
      ensures userSelectedAge == old(userSelectedAge) && userPreferredStyle == old(userPreferredStyle)
    {
      if promptRes.FetchThrew? {
        loading := false;
        browser.Navigate(ErrorPage(ErrorMessage(promptRes.message)));
        return;
      }
      if promptRes.NotOk? {
        loading := false;
        browser.Navigate(ErrorPage(ErrorMessage(PromptServicePrefix + promptRes.errorText)));
        return;
      }
      var result := promptRes.value;
      var imagePrompt := ExtractImagePrompt(result);
      if !PromptAccepted(imagePrompt) {
        browser.Navigate(ErrorPage(PromptRejected));
        return;
      }
      var imageRes := generate(imagePrompt.value);
      HandleImage(result, imageRes);
    }

    /** The rest of the `try` block once the image service has answered. */
    method HandleImage(result: string, imageRes: Fetched)
      modifies this, browser
      ensures var e := ImageOutcome(result, imageRes);
        && browser.navigations == old(browser.navigations) + e.routes
        && browser.local == StoreEffect(old(browser.local), e.stored)
        && loading == (if e.loading then old(loading) else false)
      ensures browser.cookies == old(browser.cookies) && browser.session == old(browser.session)
      ensures imageSrc == old(imageSrc) && imageFile == old(imageFile)
      ensures userSelectedAge == old(userSelectedAge) && userPreferredStyle == old(userPreferredStyle)
    {
      if imageRes.FetchThrew? {
        loading := false;
        browser.Navigate(ErrorPage(ErrorMessage(imageRes.message)));
        return;
      }
      if imageRes.NotOk? {
        loading := false;
        browser.Navigate(ErrorPage(ErrorMessage(ImageServicePrefix + imageRes.errorText)));
        return;
      }
      browser.SetLocal("reportResult", result);
      browser.SetLocal("generatedImageUrl", imageRes.value);
      browser.Navigate(Path("/report"));
    }

    /** The back button: drop the chosen photo, or go back when there is none. */
    method GoBack()
      modifies this, browser
      ensures Truthy(old(imageSrc)) ==> imageSrc == None && imageFile == None && browser.navigations == old(browser.navigations)
      ensures !Truthy(old(imageSrc)) ==>
        imageSrc == old(imageSrc) && imageFile == old(imageFile) && browser.navigations == old(browser.navigations) + [Back]
      ensures browser.cookies == old(browser.cookies) && browser.local == old(browser.local)
      ensures browser.session == old(browser.session)
      ensures loading == old(loading)
      ensures userSelectedAge == old(userSelectedAge) && userPreferredStyle == old(userPreferredStyle)
    {
      if Truthy(imageSrc) {
        imageSrc := None;
        imageFile := None;
      } else {
        browser.Navigate(Back);
      }
    }
  }
}

module SelfiePageProperties {
  import opened Wrappers
  import opened Strings
  import opened Browser
  import opened SelfiePage

  // ---------------------------------------------------------------------
  // Prompt extraction.
  // ---------------------------------------------------------------------

  lemma {:induction false} RestOfLineOf(line: string, rest: string)
    requires forall k :: 0 <= k < |line| ==> !IsLineTerminator(line[k])
    requires rest == [] || IsLineTerminator(rest[0])
    ensures RestOfLine(line + rest) == line
  {
    if line == [] {
      assert line + rest == rest;
    } else {
      assert (line + rest)[1..] == line[1..] + rest;
      RestOfLineOf(line[1..], rest);
    }
  }

  /** Without the marker there is no prompt. */
  lemma NoMarkerNoPrompt(result: string)
    requires !Contains(result, PromptMarker)
    ensures ExtractImagePrompt(result) == None
  {
  }

  /** The text after the first marker is what the capture is taken from. */
  lemma CaptureAtFirst(pre: string, marker: string, after: string)
    requires marker != []
    requires IndexOf(pre + marker + after, marker) == Some(|pre|)
    ensures CaptureAfterFirst(pre + marker + after, marker) == CaptureAfterMarker(after)
  {
    assert (pre + marker + after)[|pre| + |marker|..] == after;
  }

  lemma CaptureOfLine(ws: string, line: string, rest: string)
    requires AllSpace(ws)
    requires line != [] && !IsSpace(line[0])
    requires forall k :: 0 <= k < |line| ==> !IsLineTerminator(line[k])
    requires rest == [] || IsLineTerminator(rest[0])
    ensures CaptureAfterMarker(ws + (line + rest)) == Some(Trim(line))
  {
    TrimStartSpacesThen(ws, line + rest);
    RestOfLineOf(line, rest);
  }

  lemma CaptureOfSpaces(ws: string)
    requires AllSpace(ws)
    ensures CaptureAfterMarker(ws) == (if AllLineTerminators(ws) then None else Some(""))
  {
    TrimStartSpacesThen(ws, []);
    assert ws + [] == ws;
  }

  /** The prompt is the rest of the line after the first marker and any white
      space (line breaks included), trimmed. */
  lemma PromptIsRestOfLine(pre: string, ws: string, line: string, rest: string)
    requires IndexOf(pre + PromptMarker + (ws + (line + rest)), PromptMarker) == Some(|pre|)
    requires AllSpace(ws)
    requires line != [] && !IsSpace(line[0])
    requires forall k :: 0 <= k < |line| ==> !IsLineTerminator(line[k])
    requires rest == [] || IsLineTerminator(rest[0])
    ensures ExtractImagePrompt(pre + PromptMarker + (ws + (line + rest))) == Some(Trim(line))
  {
    CaptureAtFirst(pre, PromptMarker, ws + (line + rest));
    CaptureOfLine(ws, line, rest);
  }

  /** After the marker, white space alone yields an empty capture when it
      holds a non-terminator and no match otherwise; `PromptAccepted` refuses
      both. */
  lemma OnlySpaceAfterMarkerRefused(pre: string, ws: string)
    requires IndexOf(pre + PromptMarker + ws, PromptMarker) == Some(|pre|)
    requires AllSpace(ws)
    ensures ExtractImagePrompt(pre + PromptMarker + ws) == (if AllLineTerminators(ws) then None else Some(""))
  {
    CaptureAtFirst(pre, PromptMarker, ws);
    CaptureOfSpaces(ws);
  }

  /** An accepted prompt is trimmed and at least ten characters long. */
  lemma AcceptedPromptShape(result: string)
    requires PromptAccepted(ExtractImagePrompt(result))
    ensures var p := ExtractImagePrompt(result).value;
      IsTrimmed(p) && |p| >= MinPromptLength && Contains(result, PromptMarker)
  {
  }

  // ---------------------------------------------------------------------
  // Continue.
  // ---------------------------------------------------------------------

  /** Without a photo, Continue does nothing. */
  lemma NoPhotoNoEffect(imageSrc: Option<string>, age: Option<string>, style: Option<string>,
                        analyze: PromptService, generate: ImageService, loading: bool)
    requires !Truthy(imageSrc)
    ensures ContinueOutcome(imageSrc, age, style, analyze, generate, loading) == ContinueEffect([], None, loading)
  {
  }

  /** With a photo, the loading page comes first, carrying the age and the
      style (empty when unset) and the report as the page to return to; then
      exactly one more route. */
  lemma LoadingPageFirst(imageSrc: Option<string>, age: Option<string>, style: Option<string>,
                         analyze: PromptService, generate: ImageService, loading: bool)
    requires Truthy(imageSrc)
    ensures var e := ContinueOutcome(imageSrc, age, style, analyze, generate, loading);
      |e.routes| == 2 && e.routes[0] == Loading(Or(age, ""), Or(style, ""), "/report")
  {
  }

  /** The report and the image URL are stored exactly when both services
      succeed and the prompt is accepted; they are the analysis text and the
      URL the image service returned, and the report page comes next. */
  lemma StoredOnlyAfterBothSucceed(imageSrc: Option<string>, age: Option<string>, style: Option<string>,
                                   analyze: PromptService, generate: ImageService, loading: bool)
    ensures var e := ContinueOutcome(imageSrc, age, style, analyze, generate, loading);
      e.stored.Some? <==>
        (Truthy(imageSrc)
          && analyze(imageSrc.value, age, style).Ok?
          && PromptAccepted(ExtractImagePrompt(analyze(imageSrc.value, age, style).value))
          && generate(ExtractImagePrompt(analyze(imageSrc.value, age, style).value).value).Ok?)
    ensures var e := ContinueOutcome(imageSrc, age, style, analyze, generate, loading);
      e.stored.Some? ==>
        var result := analyze(imageSrc.value, age, style).value;
        && e.stored.value == StoredReport(result, generate(ExtractImagePrompt(result).value).value)
        && e.routes[1] == Path("/report")
  {
  }

  /** A refused prompt leads to the error page and stores nothing; the
      loading flag is left set. */
  lemma RefusedPromptShowsError(imageSrc: Option<string>, age: Option<string>, style: Option<string>,
                                analyze: PromptService, generate: ImageService, loading: bool)
    requires Truthy(imageSrc) && analyze(imageSrc.value, age, style).Ok?
    requires !PromptAccepted(ExtractImagePrompt(analyze(imageSrc.value, age, style).value))
    ensures ContinueOutcome(imageSrc, age, style, analyze, generate, loading)
         == ContinueEffect([LoadingRoute(age, style), ErrorPage(PromptRejected)], None, true)
  {
  }

  /** A failing analysis request leads to the error page with its message,
      clears the loading flag and stores nothing. */
  lemma FailedAnalysisShowsError(imageSrc: Option<string>, age: Option<string>, style: Option<string>,
                                 analyze: PromptService, generate: ImageService, loading: bool)
    requires Truthy(imageSrc) && !analyze(imageSrc.value, age, style).Ok?
    ensures var e := ContinueOutcome(imageSrc, age, style, analyze, generate, loading);
      && e.stored == None && !e.loading
      && e.routes[1] == ErrorPage(
           match analyze(imageSrc.value, age, style)
           case NotOk(t) => PromptServicePrefix + t
           case FetchThrew(m) => ErrorMessage(m)
           case Ok(_) => "")
  {
  }

  // ---------------------------------------------------------------------
  // The gate.
  // ---------------------------------------------------------------------

  /** A visitor let through without the admin flag has both cookies, so both
      values reach the loading page. */
  lemma AdmittedHasAgeAndStyle(session: map<string, string>, cookies: map<string, string>)
    requires !GateRedirects(session, cookies) && !SkipsOnboarding(session)
    ensures Truthy(Lookup(cookies, "userAge")) && Truthy(Lookup(cookies, "preferredStyle"))
    ensures LoadingRoute(Lookup(cookies, "userAge"), Lookup(cookies, "preferredStyle"))
         == Loading(cookies["userAge"], cookies["preferredStyle"], "/report")
  {
  }

  /** An admin is never sent back to the age step. */
  lemma AdminNeverRedirected(session: map<string, string>, cookies: map<string, string>)
    requires SkipsOnboarding(session)
    ensures !GateRedirects(session, cookies)
  {
  }
}
