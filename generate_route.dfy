/** The `POST /api/generate` handler: it validates the request, asks the language model
    for a page when a key is configured, and otherwise, or when the model fails or
    answers nothing, returns its own fallback fragment. */
module GenerateRoute {
  import opened Wrappers
  import opened Text
  import opened Html
  import opened Request
  import opened ClassicPage

  // ---------------------------------------------------------------------------
  // Configuration

  /** The two environment variables the handler reads. */
  datatype Env = Env(openaiApiKey: Option<string>, openaiKey: Option<string>)

  const KeyPlaceholder: string := "your_openai_api_key_here"

  /** `!!v` for an environment variable: set and not the empty string. */
  predicate Truthy(v: Option<string>) {
    v.Some? && v.value != ""
  }

  /** `isOpenAIConfigured`: `!!OPENAI_API_KEY && OPENAI_KEY !== placeholder`; an unset
      `OPENAI_KEY` is `undefined`, which is not the placeholder. */
  predicate IsOpenAIConfigured(env: Env) {
    Truthy(env.openaiApiKey) && env.openaiKey != Some(KeyPlaceholder)
  }

  /** The client is configured exactly when `OPENAI_API_KEY` holds a non-empty value
      and `OPENAI_KEY` is unset or holds anything but the placeholder. The placeholder
      is tested on the other variable: a placeholder left in `OPENAI_API_KEY` counts
      as a key, and `OPENAI_KEY` alone never configures the client. */
  lemma ConfigurationChecksTwoNames(env: Env, k: string)
    ensures IsOpenAIConfigured(env) <==>
      (match env.openaiApiKey
       case None => false
       case Some(a) => |a| > 0 && (env.openaiKey.None? || env.openaiKey.value != KeyPlaceholder))
    ensures IsOpenAIConfigured(Env(Some(KeyPlaceholder), None))
    ensures !IsOpenAIConfigured(Env(None, Some(k))) && !IsOpenAIConfigured(Env(Some(""), Some(k)))
    ensures k != "" ==> !IsOpenAIConfigured(Env(Some(k), Some(KeyPlaceholder)))
  {
  }

  // ---------------------------------------------------------------------------
  // The fallback fragment

  /** The fragment of `generateProfessionalContent`: the difficulty phrase, the
      audience paragraph, the prompt and, if a quiz section is appended, the bound
      `Math.min(numberOfQuestions, 5)` of its loop. The objectives are computed by the source but never used. */
  datatype Fragment = Fragment(
    title: string,
    difficulty: string,
    audience: Option<string>,
    prompt: string,
    quiz: Option<int>)

  function FragmentOf(d: ContentRequest): Fragment {
    Fragment(
      d.title,
      DifficultyPhrase(d.difficultyLevel),
      if d.targetAudience != "" then Some(d.targetAudience) else None,
      d.prompt,
      if d.includeQuiz && d.numberOfQuestions != 0
      then Some(Min(d.numberOfQuestions, 5))
      else None)
  }

  const IntroTail: string := " seviyesinde " + "hazırlanmıştır."

  function IntroLead(title: string): string {
    "Bu eğitim içeriği " + Plain("strong", title) + " konusunu kapsamaktadır." + " İçerik "
  }

  function IntroParagraph(f: Fragment): string {
    Plain("p", IntroLead(f.title) + f.difficulty + IntroTail)
  }

  function AudienceParagraph(audience: Option<string>): string {
    match audience
    case None => ""
    case Some(a) => Plain("p", Plain("strong", "Hedef Kitle:") + " " + a)
  }

  function IntroSection(f: Fragment): string {
    Elem("div", "content-section", Plain("h2", "Giriş") + IntroParagraph(f) + AudienceParagraph(f.audience))
  }

  const RouteTopics: seq<string> := [
    "Konu 1: Temel " + "kavramlar ve " + "tanımlar", "Konu 2: Uygulama " + "örnekleri",
    "Konu 3: Pratik " + "alıştırmalar", "Konu 4: Değerlendirme " + "ve özet"]

  const DetailTail: string := " seviyesinde " + "öğrenciler için " + "uygun şekilde " + "hazırlanmıştır."

  function DetailLead(title: string): string {
    "Bu bölümde " + title + " konusunu detaylı " + "olarak inceleyeceğiz." + " Konu, "
  }

  function DetailParagraph(f: Fragment): string {
    Plain("p", DetailLead(f.title) + f.difficulty + DetailTail)
  }

  function HighlightBox(): string {
    Elem("div", "highlight-box", Plain("h4", "Önemli Not")
      + Plain("p", "Bu içerik SCORM " + "standartlarına " + "uygun olarak " + "hazırlanmıştır " + "ve LMS sistemlerinizde " + "sorunsuz çalışacaktır."))
  }

  function DetailSection(f: Fragment): string {
    Elem("div", "content-section",
      Plain("h2", "İçerik") + Plain("p", f.prompt) + Plain("h3", "Ana Konular") + Plain("ul", RenderList(RouteTopics))
      + Plain("h3", "Detaylı Açıklama") + DetailParagraph(f) + HighlightBox())
  }

  /** The two sections every fragment starts with. */
  function Sections(f: Fragment): string {
    IntroSection(f) + DetailSection(f)
  }

  const QuizOpen: string :=
    "<div class=\"quiz-section\">" + "<h2>Değerlendirme" + "</h2><p>Aşağıdaki " + "soruları yanıtlayarak " + "öğrendiklerinizi " + "test edebilirsiniz." + "</p>"
  const QuizClose: string := "</div>"

  /** The question the loop renders at step `i`. */
  function QuestionItem(title: string): nat -> string {
    (i: nat) => RenderQuestion(ClassicQuestionFor(title, i))
  }

  /** The text the function returns. */
  function RenderFragment(f: Fragment): string {
    if f.quiz.None? then Sections(f)
    else AppendNumbered(Sections(f) + QuizOpen, QuestionItem(f.title), StepCount(f.quiz.value)) + QuizClose
  }

  /** Every question from 1 to `k` appears whole after the sections, which open the
      text unchanged. */
  lemma FragmentQuestions(f: Fragment, j: nat)
    requires f.quiz.Some? && 1 <= j <= StepCount(f.quiz.value)
    ensures IsInfix(RenderQuestion(ClassicQuestionFor(f.title, j)), RenderFragment(f))
  {
    var body := AppendNumbered(Sections(f) + QuizOpen, QuestionItem(f.title), StepCount(f.quiz.value));
    AppendNumberedContains(Sections(f) + QuizOpen, QuestionItem(f.title), StepCount(f.quiz.value), j);
    InfixOfPrefix(body, QuizClose);
    InfixTransitive(QuestionItem(f.title)(j), body, RenderFragment(f));
  }

  /** `generateProfessionalContent`: the two sections, then, for a quiz, the section
      opening, the questions and the closing tag. */
  method ProfessionalContent(d: ContentRequest) returns (content: string)
    ensures content == RenderFragment(FragmentOf(d))
  {
    var f := FragmentOf(d);
    content := Sections(f);
    if d.includeQuiz && d.numberOfQuestions != 0 {
      content := content + QuizOpen;
      content := AppendLoop(content, QuestionItem(f.title), f.quiz.value);
      content := content + QuizClose;
    }
  }

  /** The quiz section is appended exactly when `includeQuiz` is set and
      `numberOfQuestions` is not zero, with `min(n, 5)` questions, and with none
      (the heading only) when `n` is negative. */
  lemma FragmentQuizShape(d: ContentRequest)
    ensures FragmentOf(d).quiz.Some? <==> d.includeQuiz && d.numberOfQuestions != 0
    ensures FragmentOf(d).quiz.Some? && d.numberOfQuestions >= 1 ==> StepCount(FragmentOf(d).quiz.value) == Min(d.numberOfQuestions, 5)
    ensures FragmentOf(d).quiz.Some? && d.numberOfQuestions < 0 ==> StepCount(FragmentOf(d).quiz.value) == 0
  {
  }

  /** The introduction states the difficulty phrase. */
  lemma {:induction false} IntroMentionsDifficulty(f: Fragment)
    ensures IsInfix(f.difficulty, IntroSection(f))
  {
    var inner := Plain("h2", "Giriş") + IntroParagraph(f) + AudienceParagraph(f.audience);
    InfixOfConcat(IntroLead(f.title), f.difficulty, IntroTail);
    PlainEmbeds("p", IntroLead(f.title) + f.difficulty + IntroTail);
    InfixTransitive(f.difficulty, IntroLead(f.title) + f.difficulty + IntroTail, IntroParagraph(f));
    InfixOfConcat(Plain("h2", "Giriş"), IntroParagraph(f), AudienceParagraph(f.audience));
    InfixTransitive(f.difficulty, IntroParagraph(f), inner);
    ElemEmbeds("div", "content-section", inner);
    InfixTransitive(f.difficulty, inner, IntroSection(f));
  }

  /** The detail paragraph states the difficulty phrase again. */
  lemma {:induction false} DetailMentionsDifficulty(f: Fragment)
    ensures IsInfix(f.difficulty, DetailSection(f))
  {
    var head := Plain("h2", "İçerik") + Plain("p", f.prompt) + Plain("h3", "Ana Konular") + Plain("ul", RenderList(RouteTopics))
      + Plain("h3", "Detaylı Açıklama");
    var inner := head + DetailParagraph(f) + HighlightBox();
    InfixOfConcat(DetailLead(f.title), f.difficulty, DetailTail);
    PlainEmbeds("p", DetailLead(f.title) + f.difficulty + DetailTail);
    InfixTransitive(f.difficulty, DetailLead(f.title) + f.difficulty + DetailTail, DetailParagraph(f));
    InfixOfConcat(head, DetailParagraph(f), HighlightBox());
    InfixTransitive(f.difficulty, DetailParagraph(f), inner);
    ElemEmbeds("div", "content-section", inner);
    InfixTransitive(f.difficulty, inner, DetailSection(f));
  }

  /** The fragment's phrase is the difficulty phrase of the request, and the audience
      paragraph is there exactly when an audience is given. */
  lemma FragmentFields(d: ContentRequest)
    ensures FragmentOf(d).difficulty == DifficultyPhrase(d.difficultyLevel)
    ensures FragmentOf(d).audience.Some? <==> d.targetAudience != ""
    ensures FragmentOf(d).audience.Some? ==> FragmentOf(d).audience.value == d.targetAudience
  {
  }

  /** The fragment ignores the learning objectives. */
  lemma FragmentIgnoresObjectives(d: ContentRequest, objectives: string)
    ensures FragmentOf(d.(learningObjectives := objectives)) == FragmentOf(d)
  {
  }

  /** For a positive number of questions, the route asks the same questions as the
      fallback page of `scormService.ts`: the same count, numbers and options. */
  lemma FragmentQuizMatchesClassic(d: ContentRequest)
    requires d.includeQuiz && 1 <= d.numberOfQuestions
    ensures FragmentOf(d).quiz.Some?
    ensures FallbackPageOf(d).main.quiz
      == Some(seq(StepCount(FragmentOf(d).quiz.value), i requires 0 <= i => ClassicQuestionFor(d.title, i + 1)))
  {
  }

  // ---------------------------------------------------------------------------
  // The prompt

  /** `learningObjectives.split('\n').map(obj => `- ${obj}`).join('\n')`, or `''`. */
  function PromptObjectives(field: string): string {
    if field == "" then ""
    else
      var lines := Split(field, '\n');
      Join(seq(|lines|, i requires 0 <= i < |lines| => "- " + lines[i]), "\n")
  }

  /** Each line of the field becomes one line starting with "- ", in order. */
  lemma PromptObjectivesLines(field: string)
    requires field != ""
    ensures var lines := Split(field, '\n');
      Split(PromptObjectives(field), '\n') == seq(|lines|, i requires 0 <= i < |lines| => "- " + lines[i])
  {
    var lines := Split(field, '\n');
    var bullets := seq(|lines|, i requires 0 <= i < |lines| => "- " + lines[i]);
    forall k | 0 <= k < |bullets|
      ensures '\n' !in bullets[k]
    {
      assert bullets[k] == "- " + lines[k];
    }
    SplitJoin(bullets, '\n');
  }

  const QuizLead: string := "\nAyrıca, "
  const QuizTail: string :=
    " adet soru içeren " + "bir quiz bölümü " + "ekle. Her soru " + "için 4 seçenek " + "olmalı ve doğru " + "cevabı belirtmelisin.\n"

  /** The quiz request, with `numberOfQuestions` as given. */
  function QuizSentence(d: ContentRequest): string {
    if d.includeQuiz && d.numberOfQuestions != 0 then QuizLead + IntToDecimal(d.numberOfQuestions) + QuizTail else ""
  }

  /** The `switch (data.contentType)` with no default. */
  function ContentTypePhrase(contentType: string): string {
    if contentType == "course" then "Bir eğitim kursu içeriği"
    else if contentType == "quiz" then "Bir quiz/sınav içeriği"
    else if contentType == "presentation" then "Bir sunum içeriği"
    else ""
  }

  const PromptInstructions: string :=
    "Lütfen bu bilgilere " + "göre HTML formatında " + "eğitimsel bir " + "içerik oluştur. \n"
    + "İçerik, temel " + "HTML ve CSS " + "ile biçimlendirilmiş " + "olmalı ve bölümleri, " + "görselleri (sadece " + "textual açıklamalarla) "
    + "ve gerekirse " + "interaktif unsurları " + "içermelidir.\n"

  /** The lines of the user message before the objectives. */
  function PromptHead(d: ContentRequest): string {
    "\nBaşlık: " + d.title + "\nAçıklama: " + Interpolate(d.description)
    + "\nZorluk Seviyesi: " + DifficultyPhrase(d.difficultyLevel)
    + "\nİçerik Türü: " + ContentTypePhrase(d.contentType) + "\n"
    + (if d.targetAudience != "" then "Hedef Kitle: " + d.targetAudience else "")
    + "\n\nÖğrenme Hedefleri:\n"
  }

  /** The lines of the user message after the objectives. */
  function PromptTail(d: ContentRequest): string {
    "\n\nİstenen İçerik:\n" + d.prompt + "\n" + QuizSentence(d) + "\n\n" + PromptInstructions
  }

  /** The user message sent to the model. */
  function UserPrompt(d: ContentRequest): string {
    PromptHead(d) + PromptObjectives(d.learningObjectives) + PromptTail(d)
  }

  /** The quiz sentence, with the number as given (not capped at five), is there
      exactly when a quiz of a non-zero number of questions is asked for, and the
      formatted objectives are part of the message. */
  lemma PromptParts(d: ContentRequest)
    ensures QuizSentence(d) != "" <==> d.includeQuiz && d.numberOfQuestions != 0
    ensures QuizSentence(d) != "" ==> IsInfix(IntToDecimal(d.numberOfQuestions), QuizSentence(d))
    ensures IsInfix(PromptObjectives(d.learningObjectives), UserPrompt(d))
  {
    if d.includeQuiz && d.numberOfQuestions != 0 {
      InfixOfConcat(QuizLead, IntToDecimal(d.numberOfQuestions), QuizTail);
    }
    InfixOfConcat(PromptHead(d), PromptObjectives(d.learningObjectives), PromptTail(d));
  }

  /** Only the three content types the switch names have a phrase. */
  lemma ContentTypePhraseCases(contentType: string)
    ensures ContentTypePhrase(contentType) == "" <==> contentType != "course" && contentType != "quiz" && contentType != "presentation"
  {
  }

  const SystemPrompt: string :=
    "Sen bir SCORM " + "içeriği oluşturma " + "uzmanısın. Verilen " + "talimatlara " + "göre HTML formatında " + "eğitimsel içerik " + "üreteceksin."

  /** The chat completion request: system and user messages, model, token limit and
      temperature (in tenths). */
  datatype ChatRequest = ChatRequest(system: string, user: string, model: string, maxTokens: nat, temperatureTenths: nat)

  function ChatFor(d: ContentRequest): ChatRequest {
    ChatRequest(SystemPrompt, UserPrompt(d), "gpt-3.5-turbo", 2000, 7)
  }

  // ---------------------------------------------------------------------------
  // The handler

  /** What `request.json()` gives: an object (missing fields as in `ContentRequest`),
      `null`, a `SyntaxError`, or another failure while reading the body. */
  datatype ParseOutcome = Parsed(d: ContentRequest) | ParsedNull | MalformedJson | BodyReadError

  /** What the chat completion call gives: the message content, possibly null, or an error. */
  datatype LlmOutcome = Completion(content: Option<string>) | LlmError

  datatype Body = ContentBody(content: string) | ErrorBody(error: string)
  datatype Response = Response(status: nat, body: Body)

  const InvalidJsonMessage: string := "Geçersiz JSON formatı."
  const ServerErrorMessage: string := "Sunucu hatası " + "oluştu. Lütfen " + "daha sonra tekrar " + "deneyin."

  /** The model's answer when it is a non-empty text, and the fallback fragment in
      every other case. */
  function ChosenContent(env: Env, llm: LlmOutcome, fallback: string): string {
    if IsOpenAIConfigured(env) && llm.Completion? && llm.content.Some? && llm.content.value != ""
    then llm.content.value
    else fallback
  }

  /** `POST`. Returns the response and the chat request sent, if any. */
  method Post(env: Env, parse: ParseOutcome, llm: LlmOutcome) returns (resp: Response, sent: Option<ChatRequest>)
    ensures parse.MalformedJson? ==> resp == Response(400, ErrorBody(InvalidJsonMessage)) && sent == None
    ensures parse.ParsedNull? || parse.BodyReadError? ==> resp == Response(500, ErrorBody(ServerErrorMessage)) && sent == None
    ensures parse.Parsed? && !IsValid(parse.d) ==> resp == Response(400, ErrorBody(RequiredFieldsMessage)) && sent == None
    ensures parse.Parsed? && IsValid(parse.d) ==>
      resp == Response(200, ContentBody(ChosenContent(env, llm, RenderFragment(FragmentOf(parse.d)))))
      && sent == (if IsOpenAIConfigured(env) then Some(ChatFor(parse.d)) else None)
  {
    sent := None;
    match parse {
      case MalformedJson =>
        return Response(400, ErrorBody(InvalidJsonMessage)), None;
      case ParsedNull =>
        return Response(500, ErrorBody(ServerErrorMessage)), None;
      case BodyReadError =>
        return Response(500, ErrorBody(ServerErrorMessage)), None;
      case Parsed(d) =>
        if !IsValid(d) {
          return Response(400, ErrorBody(RequiredFieldsMessage)), None;
        }
        var content: string;
        if IsOpenAIConfigured(env) {
          sent := Some(ChatFor(d));
          match llm {
            case Completion(c) =>
              if c.Some? && c.value != "" {
                content := c.value;
              } else {
                content := ProfessionalContent(d);
              }
            case LlmError =>
              content := ProfessionalContent(d);
          }
        } else {
          content := ProfessionalContent(d);
        }
        resp := Response(200, ContentBody(content));
    }
  }

  /** The model's answer is used only when the client is configured and the answer is
      a non-empty text; an error, a null or an empty answer, or a missing key all give
      the fallback fragment, and without a key the content does not depend on the model. */
  lemma ChosenContentCases(env: Env, llm: LlmOutcome, other: LlmOutcome, fallback: string)
    ensures llm.LlmError? || llm == Completion(None) || llm == Completion(Some("")) ==>
      ChosenContent(env, llm, fallback) == fallback
    ensures !IsOpenAIConfigured(env) ==> ChosenContent(env, llm, fallback) == ChosenContent(env, other, fallback) == fallback
    ensures IsOpenAIConfigured(env) && llm.Completion? && llm.content.Some? && llm.content.value != "" ==>
      ChosenContent(env, llm, fallback) == llm.content.value
    ensures ChosenContent(env, llm, fallback) == fallback || ChosenContent(env, llm, fallback) == llm.content.value
  {
  }
}
