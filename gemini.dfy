// The face-analysis request: splitting the uploaded data URL, the prompt's
// age and style defaults, and how failures are reported. The model call is
// a function from the request to its outcome.

module Gemini {
  import opened Wrappers
  import opened Strings

  /** The two pieces of a data URL the request uses. */
  datatype DataUrl = DataUrl(mimeType: string, data: string)

  /** What the handler sends to the model. */
  datatype AnalysisRequest = AnalysisRequest(image: DataUrl, prompt: string)

  /** A thrown value: an `Error` with its message, or anything else. */
  datatype Thrown = ErrorObject(message: string) | NonError

  /** What the model call does with a request. */
  datatype ModelOutcome = Replied(text: string) | Threw(thrown: Thrown)

  const InvalidDataUrl: string := "Invalid imageBase64 format. Expected a data URL."

  /** The message of the `TypeError` raised when the first part has no ':'
      and `split` is called on `undefined`. */
  const SplitOfUndefined: string := "Cannot read properties of undefined (reading 'split')"

  const FailurePrefix: string := "Failed to analyze image: "

  const UnknownError: string := "Unknown error occurred"

  /** The age sent when none is usable. */
  const DefaultAge: string := "35"

  const NoAnswer: string := "Prefer not to say"

  const DefaultStyle: string := "Daily"

  /** Splits `data:<mime>;base64,<data>`: the MIME type is the text of the
      first comma part after its first ':', up to the next ':' or ';'; the
      data is the second comma part. */
  function ParseDataUrl(imageBase64: string): (r: Result<DataUrl, string>)
    ensures r == Failure(InvalidDataUrl) <==> ',' !in imageBase64
  {
    ContainsChar(imageBase64, ',');
    var parts := Split(imageBase64, ",");
    if |parts| < 2 then Failure(InvalidDataUrl)
    else
      var fields := Split(parts[0], ":");
      if |fields| < 2 then Failure(SplitOfUndefined)
      else Success(DataUrl(Split(fields[1], ";")[0], parts[1]))
  }

  /** `age === 'Prefer not to say' ? '35' : age || '35'`. */
  function PromptAge(age: Option<string>): (r: string)
    ensures r != ""
    ensures age == Some(NoAnswer) || !Truthy(age) ==> r == DefaultAge
    ensures age != Some(NoAnswer) && Truthy(age) ==> r == age.value
  {
    if age == Some(NoAnswer) then DefaultAge else Or(age, DefaultAge)
  }

  /** `style || 'Daily'`. */
  function PromptStyle(style: Option<string>): (r: string)
    ensures r != ""
    ensures !Truthy(style) ==> r == DefaultStyle
    ensures Truthy(style) ==> r == style.value
  {
    Or(style, DefaultStyle)
  }

  // The fixed text of the prompt around the two values. Only the words right
  // next to each inserted value are spelled out; the instructions between
  // them are a constant of their own.
  const Opening: string := "You are a professional Korean 16-season color stylist. The user is "
  const AgeLead: string := "approximately **"
  const AgeTail: string := " years old**"
  const Conjunction: string := " and "
  const StyleLead: string := "prefers a **"
  const StyleTail: string := "** style"
  const Instructions: string := ". Analyze the photo and answer in Markdown with the numbered sections of the report. **Image Prompt** Flatlay of a **"
  const AfterOutfitStyle: string := "** summer outfit for a person around age **"
  const Closing: string := "**."

  function AgePhrase(promptAge: string): string {
    AgeLead + promptAge + AgeTail
  }

  function StylePhrase(promptStyle: string): string {
    StyleLead + promptStyle + StyleTail
  }

  /** The prompt, with the age and the style each inserted twice. */
  function Prompt(promptAge: string, promptStyle: string): string {
    Opening + AgePhrase(promptAge) + Conjunction + StylePhrase(promptStyle)
      + Instructions + promptStyle + AfterOutfitStyle + promptAge + Closing
  }

  /** The request for an upload, or the message of the error it throws. */
  function BuildRequest(imageBase64: string, age: Option<string>, style: Option<string>): Result<AnalysisRequest, string> {
    var parsed := ParseDataUrl(imageBase64);
    if parsed.Failure? then Failure(parsed.error)
    else Success(AnalysisRequest(parsed.value, Prompt(PromptAge(age), PromptStyle(style))))
  }

  /** The message of the error rethrown for a caught value. */
  function WrapError(thrown: Thrown): (msg: string)
    ensures StartsWith(msg, FailurePrefix)
  {
    match thrown
    case ErrorObject(m) => FailurePrefix + m
    case NonError => FailurePrefix + UnknownError
  }

  /** `analyzeFace`: the model's text, or the wrapped message of whatever was thrown. */
  function AnalyzeFace(imageBase64: string, age: Option<string>, style: Option<string>,
                       model: AnalysisRequest -> ModelOutcome): (r: Result<string, string>)
    ensures r.Failure? ==> StartsWith(r.error, FailurePrefix)
  {
    var request := BuildRequest(imageBase64, age, style);
    if request.Failure? then Failure(WrapError(ErrorObject(request.error)))
    else match model(request.value)
      case Replied(text) => Success(text)
      case Threw(thrown) => Failure(WrapError(thrown))
  }
}

module GeminiProperties {
  import opened Wrappers
  import opened Strings
  import opened Gemini

  /** The first comma part of the usual shape `<scheme>:<mime><params>` gives `mime`. */
  lemma MimeOfHead(scheme: string, mime: string, params: string)
    requires ':' !in scheme
    requires ':' !in mime && ';' !in mime
    requires ':' !in params && (params == [] || params[0] == ';')
    ensures var fields := Split(scheme + ":" + mime + params, ":");
      |fields| >= 2 && Split(fields[1], ";")[0] == mime
  {
    assert scheme + ":" + mime + params == scheme + [':'] + (mime + params);
    SplitCharCons(scheme, ':', mime + params);
    SplitCharNone(mime + params, ':');
    SplitCharLast(mime, ';', params);
  }

  /** A second ':' also ends the MIME type: `data:image:png;base64` gives `image`. */
  lemma MimeStopsAtColon(scheme: string, mime: string, rest: string)
    requires ':' !in scheme
    requires ':' !in mime && ';' !in mime
    requires rest == [] || rest[0] == ':'
    ensures var fields := Split(scheme + ":" + mime + rest, ":");
      |fields| >= 2 && Split(fields[1], ";")[0] == mime
  {
    assert scheme + ":" + mime + rest == scheme + [':'] + (mime + rest);
    SplitCharCons(scheme, ':', mime + rest);
    SplitCharLast(mime, ':', rest);
    SplitCharNone(mime, ';');
    var tail := Split(mime + rest, ":");
    assert tail[0] == tail[..1][0];
  }

  /** The first two comma parts of `head,data` followed by nothing or by a
      further comma part. */
  lemma CommaParts(head: string, data: string, tail: string)
    requires ',' !in head && ',' !in data
    requires tail == [] || tail[0] == ','
    ensures var parts := Split(head + "," + data + tail, ",");
      |parts| >= 2 && parts[0] == head && parts[1] == data
  {
    SplitCharFields([head, data], ',', tail);
    assert Join([head, data], ",") + tail == head + "," + data + tail;
    var parts := Split(head + "," + data + tail, ",");
    assert parts[..2] == [head, data];
    assert parts[0] == parts[..2][0];
    assert parts[1] == parts[..2][1];
  }

  /** An upload of the usual shape `<scheme>:<mime><params>,<data>` parses to
      its MIME type and data, whatever follows a further comma. */
  lemma DataUrlParsed(scheme: string, mime: string, params: string, data: string, tail: string)
    requires ',' !in scheme && ':' !in scheme
    requires ',' !in mime && ':' !in mime && ';' !in mime
    requires ',' !in params && ':' !in params && (params == [] || params[0] == ';')
    requires ',' !in data
    requires tail == [] || tail[0] == ','
    ensures ParseDataUrl(scheme + ":" + mime + params + "," + data + tail) == Success(DataUrl(mime, data))
  {
    var head := scheme + ":" + mime + params;
    assert ',' !in head;
    CommaParts(head, data, tail);
    MimeOfHead(scheme, mime, params);
  }

  /** The data is exactly the second comma part; later parts are dropped. */
  lemma DataIsSecondPart(head: string, data: string, tail: string)
    requires ',' !in head && ',' !in data
    requires tail == [] || tail[0] == ','
    ensures ParseDataUrl(head + "," + data + tail).Success? ==>
      ParseDataUrl(head + "," + data + tail).value.data == data
  {
    CommaParts(head, data, tail);
  }

  /** Without a ':' in the first comma part, splitting `undefined` throws. */
  lemma NoColonIsTypeError(head: string, rest: string)
    requires ',' !in head && ':' !in head
    ensures ParseDataUrl(head + "," + rest) == Failure(SplitOfUndefined)
  {
    SplitCharCons(head, ',', rest);
    assert head + "," + rest == head + [','] + rest;
    SplitCharNone(head, ':');
  }

  lemma ContainsLeft(x: string, w: string)
    ensures Contains(x + w, x)
  {
    assert (x + w)[0..|x|] == x;
    ContainsAt(x + w, x, 0);
  }

  lemma ContainsRight(w: string, x: string)
    ensures Contains(w + x, x)
  {
    assert (w + x)[|w|..|w| + |x|] == x;
    ContainsAt(w + x, x, |w|);
  }

  lemma ContainsTrans(x: string, y: string, z: string)
    requires Contains(x, y) && Contains(y, z)
    ensures Contains(x, z)
  {
    var i, j := IndexOf(x, y).value, IndexOf(y, z).value;
    assert x[i + j..i + j + |z|] == y[j..j + |z|];
    ContainsAt(x, z, i + j);
  }

  /** The prompt carries the age and the style, in their phrases. */
  lemma PromptMentionsAgeAndStyle(age: Option<string>, style: Option<string>)
    ensures Contains(Prompt(PromptAge(age), PromptStyle(style)), AgePhrase(PromptAge(age)))
    ensures Contains(Prompt(PromptAge(age), PromptStyle(style)), StylePhrase(PromptStyle(style)))
    ensures Contains(Prompt(PromptAge(age), PromptStyle(style)), PromptAge(age))
    ensures Contains(Prompt(PromptAge(age), PromptStyle(style)), PromptStyle(style))
  {
    var a, st := PromptAge(age), PromptStyle(style);
    var ap, sp := AgePhrase(a), StylePhrase(st);
    // The left-nested prefixes of the prompt.
    var p1 := Opening + ap;
    var p2 := p1 + Conjunction;
    var p3 := p2 + sp;
    var p4 := p3 + Instructions;
    var p5 := p4 + st;
    var p6 := p5 + AfterOutfitStyle;
    var p7 := p6 + a;
    var p := p7 + Closing;
    assert p == Prompt(a, st);
    ContainsLeft(p7, Closing);
    ContainsLeft(p6, a);
    ContainsLeft(p5, AfterOutfitStyle);
    ContainsLeft(p4, st);
    ContainsLeft(p3, Instructions);
    ContainsRight(p2, sp);
    ContainsTrans(p4, p3, sp);
    ContainsTrans(p5, p4, sp);
    ContainsTrans(p6, p5, sp);
    ContainsTrans(p7, p6, sp);
    ContainsTrans(p, p7, sp);
    ContainsRight(Opening, ap);
    ContainsLeft(p1, Conjunction);
    ContainsLeft(p2, sp);
    ContainsTrans(p2, p1, ap);
    ContainsTrans(p3, p2, ap);
    ContainsTrans(p4, p3, ap);
    ContainsTrans(p5, p4, ap);
    ContainsTrans(p6, p5, ap);
    ContainsTrans(p7, p6, ap);
    ContainsTrans(p, p7, ap);
    ContainsLeft(AgeLead + a, AgeTail);
    ContainsRight(AgeLead, a);
    ContainsTrans(ap, AgeLead + a, a);
    ContainsTrans(p, ap, a);
    ContainsLeft(StyleLead + st, StyleTail);
    ContainsRight(StyleLead, st);
    ContainsTrans(sp, StyleLead + st, st);
    ContainsTrans(p, sp, st);
  }

  /** A request is sent only for a well-formed upload, and it carries the
      parsed image and the prompt for the defaulted age and style. */
  lemma ModelSeesParsedRequest(imageBase64: string, age: Option<string>, style: Option<string>)
    requires ParseDataUrl(imageBase64).Success?
    ensures BuildRequest(imageBase64, age, style)
         == Success(AnalysisRequest(ParseDataUrl(imageBase64).value, Prompt(PromptAge(age), PromptStyle(style))))
  {
  }

  /** The reply text is returned unchanged, and every failure (a malformed
      upload, an `Error` or any other thrown value) is reported with the
      fixed prefix and the original message. */
  lemma AnalyzeFaceOutcomes(imageBase64: string, age: Option<string>, style: Option<string>,
                            model: AnalysisRequest -> ModelOutcome)
    ensures ',' !in imageBase64 ==>
      AnalyzeFace(imageBase64, age, style, model) == Failure(FailurePrefix + InvalidDataUrl)
    ensures ParseDataUrl(imageBase64).Success? ==>
      var request := AnalysisRequest(ParseDataUrl(imageBase64).value, Prompt(PromptAge(age), PromptStyle(style)));
      && (model(request).Replied? ==> AnalyzeFace(imageBase64, age, style, model) == Success(model(request).text))
      && (model(request) == Threw(NonError) ==>
            AnalyzeFace(imageBase64, age, style, model) == Failure(FailurePrefix + UnknownError))
      && (forall m :: model(request) == Threw(ErrorObject(m)) ==>
            AnalyzeFace(imageBase64, age, style, model) == Failure(FailurePrefix + m))
  {
  }
}
