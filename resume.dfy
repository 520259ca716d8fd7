/**
 * The resume generator's handling of the model's answer: the prompt's
 * interpolated fields, the request options, the JSON span taken out of the
 * answer, and the choice between parsed and fallback content.
 */
module ResumeBuilder {
  import opened Wrappers

  /** The form's inputs that reach the prompt. */
  datatype ResumeConfig = ResumeConfig(
    includeCoverLetter: bool,
    currentResume: string,
    linkedinProfile: string,
    companyInfo: string,
    positionInfo: string)

  datatype ResumeHeader = ResumeHeader(
    name: string,
    title: string,
    email: string,
    phone: string,
    location: Option<string>,
    linkedin: Option<string>,
    github: Option<string>)

  /** A structured resume, by its header and summary. */
  datatype Resume = Resume(header: ResumeHeader, summary: string)

  datatype GeneratedContent = GeneratedContent(resume: Resume, coverLetter: Option<string>)

  const FALLBACK_RESUME: Resume := Resume(
    ResumeHeader(
      "John Doe",
      "Senior Software Engineer",
      "john.doe@email.com",
      "(555) 123-4567",
      Some("San Francisco, CA"),
      Some("linkedin.com/in/johndoe"),
      Some("github.com/johndoe")),
    "Experienced software engineer with 5+ years developing scalable web applications. " +
    "Proven track record of leading teams and delivering high-quality solutions. " +
    "Passionate about clean code and modern development practices.")

  const FALLBACK_COVER_LETTER: string :=
    "Dear Hiring Manager,\n\n" +
    "I am writing to express my strong interest in the position at your company. " +
    "With my extensive experience in software development and proven track record of delivering high-quality solutions, " +
    "I am confident I would be a valuable addition to your team.\n\n" +
    "In my current role as Senior Software Engineer at TechCorp Inc., I have led the development of microservices architecture " +
    "serving over 1 million users. I have also mentored a team of junior developers and implemented efficient CI/CD pipelines " +
    "that significantly improved our deployment process.\n\n" +
    "I am particularly drawn to your company's innovative approach and commitment to excellence. " +
    "The opportunity to contribute to your mission while continuing to grow professionally is extremely appealing to me.\n\n" +
    "I would welcome the opportunity to discuss how my skills and experience align with your needs. " +
    "Thank you for considering my application.\n\n" +
    "Sincerely,\nJohn Doe"

  // ---------------------------------------------------------------------------
  // The request
  // ---------------------------------------------------------------------------

  const NO_RESUME: string := "No current resume provided - create realistic professional experience"
  const NO_PROFILE: string := "Not provided"
  const NO_COMPANY: string := "General application"
  const NO_POSITION: string := "Software Engineer role"

  /** `value || placeholder` for a string. */
  function OrPlaceholder(value: string, placeholder: string): (r: string)
    ensures value != "" ==> r == value
    ensures value == "" ==> r == placeholder
  {
    if value != "" then value else placeholder
  }

  /** The values the prompt interpolates, and whether its schema has a `coverLetter` field. */
  datatype Prompt = Prompt(
    currentResume: string,
    linkedinProfile: string,
    companyInfo: string,
    positionInfo: string,
    asksCoverLetter: bool)

  function BuildPrompt(config: ResumeConfig): Prompt {
    Prompt(
      OrPlaceholder(config.currentResume, NO_RESUME),
      OrPlaceholder(config.linkedinProfile, NO_PROFILE),
      OrPlaceholder(config.companyInfo, NO_COMPANY),
      OrPlaceholder(config.positionInfo, NO_POSITION),
      config.includeCoverLetter)
  }

  /**
   * No line of the prompt is left blank: an empty input is replaced by its
   * placeholder and a filled one is passed on as typed; the cover letter is
   * asked for exactly when one was requested.
   */
  lemma PromptFields(config: ResumeConfig)
    ensures var p := BuildPrompt(config);
            && p.currentResume != "" && p.linkedinProfile != "" && p.companyInfo != "" && p.positionInfo != ""
            && (config.currentResume != "" ==> p.currentResume == config.currentResume)
            && (config.linkedinProfile != "" ==> p.linkedinProfile == config.linkedinProfile)
            && (config.companyInfo != "" ==> p.companyInfo == config.companyInfo)
            && (config.positionInfo != "" ==> p.positionInfo == config.positionInfo)
            && (config.currentResume == "" ==> p.currentResume == NO_RESUME)
            && (config.linkedinProfile == "" ==> p.linkedinProfile == NO_PROFILE)
            && (config.companyInfo == "" ==> p.companyInfo == NO_COMPANY)
            && (config.positionInfo == "" ==> p.positionInfo == NO_POSITION)
            && (p.asksCoverLetter <==> config.includeCoverLetter)
  {
  }

  /** The options passed with the prompt. */
  datatype GenerateOptions = GenerateOptions(temperature: real, maxTokens: nat)

  function RequestOptions(config: ResumeConfig): (o: GenerateOptions)
    ensures o.temperature == 0.7
    ensures o.maxTokens == (if config.includeCoverLetter then 4000 else 3000)
  {
    GenerateOptions(0.7, if config.includeCoverLetter then 4000 else 3000)
  }

  // ---------------------------------------------------------------------------
  // The JSON span
  // ---------------------------------------------------------------------------

  /** The first position of `c` in `s`. */
  function FirstOf(s: string, c: char): (r: Option<nat>)
    ensures r.Some? ==> r.value < |s| && s[r.value] == c && forall k :: 0 <= k < r.value ==> s[k] != c
    ensures r.None? ==> forall k :: 0 <= k < |s| ==> s[k] != c
  {
    if s == [] then None
    else if s[0] == c then Some(0)
    else match FirstOf(s[1..], c)
      case None => None
      case Some(k) => Some(k + 1)
  }

  /** The last position of `c` in `s`. */
  function LastOf(s: string, c: char): (r: Option<nat>)
    ensures r.Some? ==> r.value < |s| && s[r.value] == c && forall k :: r.value < k < |s| ==> s[k] != c
    ensures r.None? ==> forall k :: 0 <= k < |s| ==> s[k] != c
  {
    if s == [] then None
    else if s[|s| - 1] == c then Some(|s| - 1)
    else LastOf(s[..|s| - 1], c)
  }

  /** `/\{[\s\S]*\}/` can match from p to q inclusive. */
  ghost predicate IsSpan(s: string, p: nat, q: nat) {
    p < q < |s| && s[p] == '{' && s[q] == '}'
  }

  /** The match `String.prototype.match` reports: leftmost, then longest. */
  ghost predicate IsFirstLongestSpan(s: string, p: nat, q: nat) {
    IsSpan(s, p, q) &&
    (forall p': nat, q': nat :: p' < p ==> !IsSpan(s, p', q')) &&
    (forall q': nat :: q < q' ==> !IsSpan(s, p, q'))
  }

  /** The bounds of the regex match: the first '{' and the last '}', if that one comes later. */
  function SpanBounds(s: string): (r: Option<(nat, nat)>)
    ensures r.Some? ==> IsFirstLongestSpan(s, r.value.0, r.value.1)
    ensures r.None? ==> forall p: nat, q: nat :: !IsSpan(s, p, q)
  {
    match FirstOf(s, '{')
    case None => None
    case Some(p) =>
      match LastOf(s, '}')
      case None => None
      case Some(q) => if p < q then Some((p, q)) else None
  }

  /** `jsonMatch[0]`. */
  function JsonSpan(s: string): (r: Option<string>)
    ensures r.Some? ==> |r.value| >= 2 && r.value[0] == '{' && r.value[|r.value| - 1] == '}'
  {
    match SpanBounds(s)
    case None => None
    case Some((p, q)) => Some(s[p..q + 1])
  }

  /** The match is a slice of the answer, and the only one the two conditions allow. */
  lemma SpanUnique(s: string, p: nat, q: nat)
    requires IsFirstLongestSpan(s, p, q)
    ensures SpanBounds(s) == Some((p, q))
    ensures JsonSpan(s) == Some(s[p..q + 1])
  {
    var found := SpanBounds(s);
    assert IsSpan(s, p, q);
    assert found.Some?;
    var (p2, q2) := found.value;
    assert !(p < p2) && !(p2 < p) by {
      assert IsSpan(s, p, q) && IsSpan(s, p2, q2);
    }
    assert !(q < q2) && !(q2 < q) by {
      assert IsSpan(s, p, q) && IsSpan(s, p2, q2);
    }
  }

  // ---------------------------------------------------------------------------
  // The answer
  // ---------------------------------------------------------------------------

  /**
   * The fields read from the parsed object; a missing or falsy field is None.
   * The span starts with '{', so anything `JSON.parse` accepts here is an object.
   */
  datatype ParsedData = ParsedData(resume: Option<Resume>, coverLetter: Option<string>)

  /** `JSON.parse`, None where it throws. */
  type ParsedReader = string -> Option<ParsedData>

  /** The content returned when anything fails. */
  function Fallback(config: ResumeConfig): (g: GeneratedContent)
    ensures g.resume == FALLBACK_RESUME
    ensures g.coverLetter.Some? <==> config.includeCoverLetter
    ensures g.coverLetter.Some? ==> g.coverLetter.value == FALLBACK_COVER_LETTER
  {
    GeneratedContent(FALLBACK_RESUME, if config.includeCoverLetter then Some(FALLBACK_COVER_LETTER) else None)
  }

  /** A cover letter string is truthy when present and non-empty. */
  predicate Truthy(letter: Option<string>) {
    letter.Some? && letter.value != ""
  }

  /**
   * `generateResume`, with `answer` the model's reply (None where the call
   * throws) and `parse` standing for `JSON.parse`. It always returns content.
   */
  function GenerateResume(config: ResumeConfig, answer: Option<string>, parse: ParsedReader): GeneratedContent {
    if answer.None? then Fallback(config)
    else match JsonSpan(answer.value)
      case None => Fallback(config)
      case Some(span) =>
        match parse(span)
        case None => Fallback(config)
        case Some(data) =>
          GeneratedContent(
            data.resume.GetOr(FALLBACK_RESUME),
            if Truthy(data.coverLetter) then data.coverLetter
            else if config.includeCoverLetter then Some(FALLBACK_COVER_LETTER)
            else None)
  }

  /** A failed call, an answer with no span or a span that does not parse all give the fallback. */
  lemma FailureGivesFallback(config: ResumeConfig, answer: Option<string>, parse: ParsedReader)
    requires answer.None? || JsonSpan(answer.value).None? || parse(JsonSpan(answer.value).value).None?
    ensures GenerateResume(config, answer, parse) == Fallback(config)
  {
  }

  /** An answer with no '{' before a later '}' gives the fallback. */
  lemma NoSpanGivesFallback(config: ResumeConfig, answer: string, parse: ParsedReader)
    requires forall p: nat, q: nat :: !IsSpan(answer, p, q)
    ensures GenerateResume(config, Some(answer), parse) == Fallback(config)
  {
  }

  /**
   * A parsed answer: the resume is the parsed one when present, and the cover
   * letter is the parsed one when truthy, even unrequested, else the fallback
   * exactly when one was requested.
   */
  lemma ParsedChoice(config: ResumeConfig, answer: string, parse: ParsedReader)
    requires JsonSpan(answer).Some? && parse(JsonSpan(answer).value).Some?
    ensures var data := parse(JsonSpan(answer).value).value;
            var g := GenerateResume(config, Some(answer), parse);
            && (data.resume.Some? ==> g.resume == data.resume.value)
            && (data.resume.None? ==> g.resume == FALLBACK_RESUME)
            && (Truthy(data.coverLetter) ==> g.coverLetter == data.coverLetter)
            && (!Truthy(data.coverLetter) ==> g == GeneratedContent(g.resume, Fallback(config).coverLetter))
  {
  }

  /**
   * Whatever happens, a requested cover letter is there and non-empty, and an
   * unrequested one is there only when the model supplied it.
   */
  lemma CoverLetterPresence(config: ResumeConfig, answer: Option<string>, parse: ParsedReader)
    ensures var g := GenerateResume(config, answer, parse);
            && (config.includeCoverLetter ==> Truthy(g.coverLetter))
            && (!config.includeCoverLetter && g.coverLetter.Some? ==>
                  answer.Some? && JsonSpan(answer.value).Some? &&
                  parse(JsonSpan(answer.value).value).Some? &&
                  g.coverLetter == parse(JsonSpan(answer.value).value).value.coverLetter)
  {
  }
}
