/** The templates of `scormService.ts`: one page wraps the AI answer, the other is the
    fallback page built from the request alone. Both carry the runtime bridge, and the
    three template classes chosen from `template`. */
module ClassicPage {
  import opened Wrappers
  import opened Text
  import opened Html
  import opened Request

  // ---------------------------------------------------------------------------
  // Template classes

  /** The classes of `<body>`, `<header>` and the content `<div>`. */
  datatype Theme = Theme(templateClass: string, headerClass: string, contentClass: string)

  predicate KnownTemplate(t: string) {
    t == "modern" || t == "classic" || t == "minimal"
  }

  /** The switch of the AI page: every value that is not a known template falls to the
      `default` branch, which repeats the modern case. */
  function AiThemeFor(template: string): Theme {
    if template == "classic" then Theme("classic-template", "classic-header", "classic-content")
    else if template == "minimal" then Theme("minimal-template", "minimal-header", "minimal-content")
    else Theme("modern-template", "modern-header", "modern-content")
  }

  /** The switch of the fallback page, which has no `default` branch. */
  function FallbackThemeFor(template: string): Theme {
    if template == "modern" then Theme("modern-template", "modern-header", "modern-content")
    else if template == "classic" then Theme("classic-template", "classic-header", "classic-content")
    else if template == "minimal" then Theme("minimal-template", "minimal-header", "minimal-content")
    else Theme("", "", "")
  }

  /** The three classes named after a template. */
  function NamedTheme(t: string): Theme {
    Theme(t + "-template", t + "-header", t + "-content")
  }

  /** A known template gives its own three classes on both pages; any other value
      gives the modern classes on the AI page and no classes on the fallback page. */
  lemma ThemeSelection(t: string)
    ensures KnownTemplate(t) ==> AiThemeFor(t) == FallbackThemeFor(t) == NamedTheme(t)
    ensures !KnownTemplate(t) ==> AiThemeFor(t) == NamedTheme("modern")
    ensures !KnownTemplate(t) ==> FallbackThemeFor(t) == Theme("", "", "")
  {
  }

  /** The AI page's `switch (data.template)`, assigning the three variables case by case. */
  method AiTheme(template: string) returns (th: Theme)
    ensures th == AiThemeFor(template)
  {
    var templateClass, headerClass, contentClass := "", "", "";
    if template == "modern" {
      templateClass, headerClass, contentClass := "modern-template", "modern-header", "modern-content";
    } else if template == "classic" {
      templateClass, headerClass, contentClass := "classic-template", "classic-header", "classic-content";
    } else if template == "minimal" {
      templateClass, headerClass, contentClass := "minimal-template", "minimal-header", "minimal-content";
    } else {
      templateClass, headerClass, contentClass := "modern-template", "modern-header", "modern-content";
    }
    th := Theme(templateClass, headerClass, contentClass);
  }

  /** The fallback page's switch: without a matching case the variables stay empty. */
  method FallbackTheme(template: string) returns (th: Theme)
    ensures th == FallbackThemeFor(template)
  {
    var templateClass, headerClass, contentClass := "", "", "";
    if template == "modern" {
      templateClass, headerClass, contentClass := "modern-template", "modern-header", "modern-content";
    } else if template == "classic" {
      templateClass, headerClass, contentClass := "classic-template", "classic-header", "classic-content";
    } else if template == "minimal" {
      templateClass, headerClass, contentClass := "minimal-template", "minimal-header", "minimal-content";
    }
    th := Theme(templateClass, headerClass, contentClass);
  }

  // ---------------------------------------------------------------------------
  // The pages

  /** A question of the fallback quiz: its number, its text and its four options. */
  datatype ClassicQuestion = ClassicQuestion(number: nat, text: string, options: seq<string>)

  /** What follows the objectives: the AI answer, or the fallback sections (level
      word, audience, prompt and quiz). */
  datatype Main =
    | AiMain(html: string)
    | FallbackMain(level: string, audience: Option<string>, prompt: string, quiz: Option<seq<ClassicQuestion>>)

  datatype Page = Page(title: string, description: string, theme: Theme, objectives: seq<string>, main: Main)

  /** One `<li>` per line of the field, without filtering, or the default objective. */
  function ClassicObjectives(field: string): seq<string> {
    if field == "" then [DefaultObjective] else Split(field, '\n')
  }

  /** `'başlangıç'`, `'orta'` or `'ileri'`. */
  function LevelWord(level: string): string {
    if level == "beginner" then "başlangıç" else if level == "intermediate" then "orta" else "ileri"
  }

  const ClassicOptions: seq<string> := ["A) Seçenek A", "B) Seçenek B", "C) Seçenek C", "D) Seçenek D"]

  function ClassicQuestionFor(title: string, n: nat): ClassicQuestion {
    ClassicQuestion(n, title + " konusu ile " + "ilgili örnek " + "soru " + NatToDecimal(n) + "?", ClassicOptions)
  }

  /** The page that wraps an AI answer. */
  function AiPageOf(d: ContentRequest, body: string): Page {
    Page(d.title, Interpolate(d.description), AiThemeFor(d.template), ClassicObjectives(d.learningObjectives), AiMain(body))
  }

  /** The page of `generateProfessionalContent`. */
  function FallbackPageOf(d: ContentRequest): Page {
    Page(d.title, Interpolate(d.description), FallbackThemeFor(d.template), ClassicObjectives(d.learningObjectives),
      FallbackMain(
        LevelWord(d.difficultyLevel),
        if d.targetAudience != "" then Some(d.targetAudience) else None,
        d.prompt,
        if d.includeQuiz
        then Some(seq(ServiceQuizLength(d.numberOfQuestions), i requires 0 <= i => ClassicQuestionFor(d.title, i + 1)))
        else None))
  }

  // ---------------------------------------------------------------------------
  // Rendering

  function RenderList(items: seq<string>): string {
    if items == [] then "" else Plain("li", items[0]) + RenderList(items[1..])
  }

  function RenderQuestion(q: ClassicQuestion): string {
    Elem("div", "quiz-question", Plain("h4", "Soru " + NatToDecimal(q.number) + ":") + Plain("p", q.text)
      + Elem("ul", "options", RenderList(q.options)))
  }

  function RenderQuestions(qs: seq<ClassicQuestion>): string {
    if qs == [] then "" else RenderQuestion(qs[0]) + RenderQuestions(qs[1..])
  }

  function RenderMain(title: string, m: Main): string {
    match m
    case AiMain(html) => Elem("div", "ai-content", html)
    case FallbackMain(level, audience, prompt, quiz) =>
      Elem("div", "section", Plain("h2", "Giriş")
        + Plain("p", "Bu SCORM içeriği " + Plain("strong", title) + " konusunu kapsamaktadır." + " İçerik " + level + " seviyededir.")
        + (match audience case None => "" case Some(a) => Plain("p", Plain("strong", "Hedef Kitle:") + " " + a)))
      + Elem("div", "section", Plain("h2", "İçerik") + Plain("p", prompt)
        + Plain("p", "Bu bölümde " + title + " konusunu detaylı " + "olarak inceleyeceğiz." + " Konu, " + level
                     + " seviyesinde " + "öğrenciler için " + "uygun şekilde " + "hazırlanmıştır."))
      + (match quiz case None => "" case Some(qs) => Elem("div", "quiz-section", Plain("h2", "Değerlendirme") + RenderQuestions(qs)))
  }

  /** The document: the header with the title and description, then, in the content
      `<div>`, the objectives and the main part. */
  function RenderPage(p: Page): string {
    "<!DOCTYPE html>" + "<html lang=\"tr\">" + "<head>" + Plain("title", p.title) + "</head>"
    + "<body class=\"" + p.theme.templateClass + "\">"
    + Elem("header", p.theme.headerClass, Plain("h1", p.title) + Elem("p", "description", p.description))
    + Elem("div", p.theme.contentClass,
        Elem("div", "objectives", Plain("h2", "Öğrenme Hedefleri") + Plain("ul", RenderList(p.objectives)))
        + RenderMain(p.title, p.main))
    + "</body></html>"
  }

  /** `generateProfessionalContent`. */
  function ProfessionalContent(d: ContentRequest): string {
    RenderPage(FallbackPageOf(d))
  }

  /** `generateProfessionalContent`, with its class switch. */
  method GenerateProfessionalContent(d: ContentRequest) returns (content: string)
    ensures content == ProfessionalContent(d)
  {
    var th := FallbackTheme(d.template);
    var fallback := FallbackPageOf(d);
    content := RenderPage(Page(d.title, Interpolate(d.description), th, fallback.objectives, fallback.main));
  }

  // ---------------------------------------------------------------------------
  // Properties of the pages

  /** The AI answer appears verbatim, wrapped in `<div class="ai-content">`. */
  lemma {:induction false} AiBodyEmbedded(d: ContentRequest, body: string)
    ensures IsInfix(Elem("div", "ai-content", body), RenderPage(AiPageOf(d, body)))
    ensures IsInfix(body, RenderPage(AiPageOf(d, body)))
  {
    var p := AiPageOf(d, body);
    var ai := Elem("div", "ai-content", body);
    var objectives := Elem("div", "objectives", Plain("h2", "Öğrenme Hedefleri") + Plain("ul", RenderList(p.objectives)));
    var inner := objectives + ai;
    var contentDiv := Elem("div", p.theme.contentClass, inner);
    var before := "<!DOCTYPE html>" + "<html lang=\"tr\">" + "<head>" + Plain("title", p.title) + "</head>"
      + "<body class=\"" + p.theme.templateClass + "\">"
      + Elem("header", p.theme.headerClass, Plain("h1", p.title) + Elem("p", "description", p.description));
    assert RenderPage(p) == before + contentDiv + "</body></html>";
    InfixOfConcat(before, contentDiv, "</body></html>");
    ElemEmbeds("div", p.theme.contentClass, inner);
    InfixOfConcat(objectives, ai, "");
    assert objectives + ai + "" == inner;
    InfixTransitive(ai, inner, contentDiv);
    InfixTransitive(ai, contentDiv, RenderPage(p));
    ElemEmbeds("div", "ai-content", body);
    InfixTransitive(body, ai, RenderPage(p));
  }

  /** Without filtering, a non-empty field gives one objective per line, newlines plus
      one, and the lines joined back give the field; an empty field gives the default. */
  lemma ClassicObjectivesCount(field: string)
    ensures field == "" ==> ClassicObjectives(field) == [DefaultObjective]
    ensures field != "" ==> |ClassicObjectives(field)| == Occurrences(field, '\n') + 1
    ensures field != "" ==> Join(ClassicObjectives(field), "\n") == field
  {
    if field != "" {
      JoinSplit(field, '\n');
    }
  }

  /** A field of `n` line breaks gives `n + 1` empty objectives. */
  lemma {:induction false} NewlinesGiveEmptyObjectives(field: string)
    requires field != "" && forall k :: 0 <= k < |field| ==> field[k] == '\n'
    ensures |ClassicObjectives(field)| == |field| + 1
    ensures forall k :: 0 <= k < |ClassicObjectives(field)| ==> ClassicObjectives(field)[k] == ""
  {
    SplitOnlySeparators(field, '\n');
    OccurrencesAll(field, '\n');
  }

  lemma {:induction false} OccurrencesAll(s: string, c: char)
    requires forall k :: 0 <= k < |s| ==> s[k] == c
    ensures Occurrences(s, c) == |s|
  {
    if s != [] {
      OccurrencesAll(s[1..], c);
    }
  }

  /** The fallback quiz is there exactly when a quiz is asked for, with
      `min(numberOfQuestions || 3, 5)` questions numbered from 1, each with the four
      options A to D. */
  lemma FallbackQuizShape(d: ContentRequest)
    ensures FallbackPageOf(d).main.quiz.Some? <==> d.includeQuiz
    ensures FallbackPageOf(d).main.quiz.Some? ==>
      var qs := FallbackPageOf(d).main.quiz.value;
      |qs| == ServiceQuizLength(d.numberOfQuestions)
      && forall i :: 0 <= i < |qs| ==> qs[i].number == i + 1 && qs[i].options == ClassicOptions && |qs[i].options| == 4
  {
    if d.includeQuiz {
      var qs := FallbackPageOf(d).main.quiz.value;
      forall i | 0 <= i < |qs|
        ensures qs[i] == ClassicQuestionFor(d.title, i + 1)
      {
      }
    }
  }

  /** The level word (used in the introduction and in the detail paragraph) and the
      audience paragraph of the fallback page. */
  lemma FallbackSections(d: ContentRequest)
    ensures FallbackPageOf(d).main.level == LevelWord(d.difficultyLevel)
    ensures FallbackPageOf(d).main.audience.Some? <==> d.targetAudience != ""
    ensures FallbackPageOf(d).main.audience.Some? ==> FallbackPageOf(d).main.audience.value == d.targetAudience
    ensures FallbackPageOf(d).main.prompt == d.prompt
    ensures LevelWord(d.difficultyLevel) in {"başlangıç", "orta", "ileri"}
    ensures LevelWord(d.difficultyLevel) == "başlangıç" <==> d.difficultyLevel == "beginner"
    ensures LevelWord(d.difficultyLevel) == "orta" <==> d.difficultyLevel == "intermediate"
  {
  }
}

/** The operations `scormService.ts` exports. The validation sits before the `try`
    of `generateSCORMContent`, so an invalid request is an error and never becomes
    fallback content; a failing AI call does. */
module ServiceClassic {
  import opened Wrappers
  import opened Html
  import opened Request
  import opened Naming
  import opened Package
  import opened ClassicPage

  /** The page for a valid request and an AI outcome. */
  function ClassicContent(d: ContentRequest, ai: Result<string, string>): string {
    match ai
    case Success(body) => RenderPage(AiPageOf(d, body))
    case Failure(_) => ProfessionalContent(d)
  }

  /** `generateSCORMContent`. */
  method GenerateScormContent(d: ContentRequest, ai: Result<string, string>) returns (r: Result<string, string>)
    ensures !IsValid(d) ==> r == Failure(RequiredFieldsMessage)
    ensures IsValid(d) ==> r == Success(ClassicContent(d, ai))
  {
    if !IsValid(d) {
      return Failure(RequiredFieldsMessage);
    }
    match ai {
      case Success(body) =>
        var th := AiTheme(d.template);
        r := Success(RenderPage(Page(d.title, Interpolate(d.description), th, ClassicObjectives(d.learningObjectives), AiMain(body))));
      case Failure(_) =>
        var content := GenerateProfessionalContent(d);
        r := Success(content);
    }
  }

  /** A valid request gives the AI page when the AI call answers and the fallback page
      when it throws. */
  lemma ContentChoice(d: ContentRequest, ai: Result<string, string>)
    ensures ai.Success? ==> IsInfix(ai.value, ClassicContent(d, ai))
    ensures ai.Failure? ==> ClassicContent(d, ai) == ProfessionalContent(d)
  {
    if ai.Success? {
      AiBodyEmbedded(d, ai.value);
    }
  }

  /** `previewSCORMContent`. */
  method PreviewScormContent(d: ContentRequest, ai: Result<string, string>) returns (r: Result<string, string>)
    ensures !IsValid(d) ==> r == Failure(PreviewError)
    ensures IsValid(d) ==> r == Success(ClassicContent(d, ai))
  {
    if !IsValid(d) {
      return Failure(PreviewError);
    }
    r := GenerateScormContent(d, ai);
  }

  /** The manifest of this service: organization `scormai_org`, a visible item `item_1`
      without a mastery score, resource `resource_1`, and a LOM title and description. */
  function ClassicManifest(d: ContentRequest): Manifest {
    Manifest(
      ManifestIdentifier(d.title), "1.0", "ADL SCORM", "1.2", Some(Lom(d.title, Interpolate(d.description))), "scormai_org",
      [Organization("scormai_org", d.title, [Item("item_1", "resource_1", Some("true"), d.title, None)])],
      [Resource("resource_1", "webcontent", "sco", IndexMember, [IndexMember])])
  }

  lemma ClassicManifestFacts(d: ContentRequest)
    ensures WellFormed(ClassicManifest(d))
    ensures FilesPresent(ClassicManifest(d), ArchiveMembers)
    ensures ClassicManifest(d).identifier == ManifestIdentifier(d.title)
    ensures |ClassicManifest(d).resources| == 1 && ClassicManifest(d).resources[0].href == "index.html"
    ensures AllItems(ClassicManifest(d).organizations) == [Item("item_1", "resource_1", Some("true"), d.title, None)]
    ensures ClassicManifest(d).lom == Some(Lom(d.title, Interpolate(d.description)))
  {
    var m := ClassicManifest(d);
    assert AllItems(m.organizations) == m.organizations[0].items + AllItems([]);
    assert HasResource(m, "resource_1") by {
      assert m.resources[0] in m.resources;
    }
    assert m.organizations[0] in m.organizations;
  }

  function ClassicPackage(d: ContentRequest, ai: Result<string, string>): map<string, string> {
    Archive(ClassicContent(d, ai), Render(ClassicManifest(d)))
  }

  /** `createSCORMPackage`. */
  method CreateScormPackage(d: ContentRequest, ai: Result<string, string>) returns (r: Result<map<string, string>, string>)
    ensures r.Failure? <==> !IsValid(d)
    ensures r.Failure? ==> r.error == CreatePackageError
    ensures r.Success? ==> r.value == ClassicPackage(d, ai)
  {
    var zip := new Zip();
    if !IsValid(d) {
      return Failure(CreatePackageError);
    }
    var content := GenerateScormContent(d, ai);
    FillArchive(zip, content.value, Render(ClassicManifest(d)));
    r := Success(zip.files);
  }

  /** `downloadSCORMPackage`. */
  method DownloadScormPackage(d: ContentRequest, ai: Result<string, string>) returns (r: Result<Download, string>)
    ensures !IsValid(d) ==> r == Failure(DownloadError)
    ensures IsValid(d) ==> r == Success(Download(FileName(d.title), ClassicPackage(d, ai)))
  {
    if !IsValid(d) {
      return Failure(DownloadError);
    }
    var blob := CreateScormPackage(d, ai);
    r := Success(Download(FileName(d.title), blob.value));
  }
}
