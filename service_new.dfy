/** The template builder of `scormServiceNew.ts`: a request becomes a deck of four
    slides (hero and objectives, introduction, topics, detail) and, when a quiz is
    asked for, a fifth quiz slide. */
module SlideDeck {
  import opened Wrappers
  import opened Text
  import opened Html
  import opened Request

  // ---------------------------------------------------------------------------
  // The deck

  /** An objective card: its position (`data-index`) and its text. */
  datatype ObjectiveItem = ObjectiveItem(index: nat, text: string)

  /** A radio option: its value and its label. */
  datatype QuizOption = QuizOption(value: char, caption: string)

  /** A quiz question: its number, its points, its question text and its options. */
  datatype Question = Question(number: nat, points: nat, text: string, options: seq<QuizOption>)

  datatype Deck = Deck(
    title: string,
    subtitle: string,
    levelClass: string,
    badge: string,
    objectives: seq<ObjectiveItem>,
    prompt: string,
    audience: Option<string>,
    detail: string,
    quiz: Option<seq<Question>>,
    totalSlides: nat)

  const DefaultSubtitle: string := "Profesyonel " + "eğitim içeriği"
  const QuestionPoints: nat := 5

  /** The objectives: the non-blank lines of the field, or the default objective when
      the field is empty. */
  function NewObjectives(field: string): seq<string> {
    if field == "" then [DefaultObjective] else KeepNonBlank(Split(field, '\n'))
  }

  /** `data.description || 'Profesyonel eğitim içeriği'`. */
  function Subtitle(description: Option<string>): (s: string)
    ensures description.Some? && description.value != "" ==> s == description.value
    ensures description.None? || description.value == "" ==> s == DefaultSubtitle
  {
    match description
    case Some(t) => if t != "" then t else DefaultSubtitle
    case None => DefaultSubtitle
  }

  /** The four options of every question; option A is labelled as the right one. */
  const QuizOptions: seq<QuizOption> := [
    QuizOption('A', "A) Seçenek A " + "- Doğru cevap"),
    QuizOption('B', "B) Seçenek B"),
    QuizOption('C', "C) Seçenek C"),
    QuizOption('D', "D) Seçenek D")]

  function MakeQuestion(number: nat, title: string): Question {
    Question(number, QuestionPoints, title + " konusu ile " + "ilgili aşağıdakilerden " + "hangisi doğrudur?", QuizOptions)
  }

  function Questions(d: ContentRequest): seq<Question> {
    seq(ServiceQuizLength(d.numberOfQuestions), i requires 0 <= i => MakeQuestion(i + 1, d.title))
  }

  function DetailText(title: string, phrase: string): string {
    "Bu bölümde " + title + " konusunun temel " + "kavramlarını " + "inceleyeceğiz." + " Konu, " + phrase
    + " seviyesinde " + "öğrenciler için " + "uygun şekilde " + "hazırlanmıştır."
  }

  /** The deck `generateProfessionalContent` lays out for a request. */
  function BuildDeck(d: ContentRequest): Deck {
    var objectives := NewObjectives(d.learningObjectives);
    Deck(
      d.title,
      Subtitle(d.description),
      d.difficultyLevel,
      ToUpperCase(DifficultyPhrase(d.difficultyLevel)),
      seq(|objectives|, i requires 0 <= i < |objectives| => ObjectiveItem(i, objectives[i])),
      d.prompt,
      if d.targetAudience != "" then Some(d.targetAudience) else None,
      DetailText(d.title, DifficultyPhrase(d.difficultyLevel)),
      if d.includeQuiz then Some(Questions(d)) else None,
      if d.includeQuiz then 5 else 4)
  }

  // ---------------------------------------------------------------------------
  // Rendering

  function RenderObjective(o: ObjectiveItem): string {
    "<div class=\"objective-item\" " + "data-index=\"" + NatToDecimal(o.index) + "\">" + Plain("span", o.text) + "</div>"
  }

  function RenderObjectives(os: seq<ObjectiveItem>): string {
    if os == [] then "" else RenderObjective(os[0]) + RenderObjectives(os[1..])
  }

  function RenderOption(number: nat, o: QuizOption): string {
    Elem("label", "option-item",
      "<input type=\"radio\" " + "name=\"question" + NatToDecimal(number) + "\" value=\"" + [o.value] + "\">"
      + Elem("span", "option-text", o.caption))
  }

  function RenderOptions(number: nat, os: seq<QuizOption>): string {
    if os == [] then "" else RenderOption(number, os[0]) + RenderOptions(number, os[1..])
  }

  function RenderQuestion(q: Question): string {
    "<div class=\"quiz-question\" " + "data-question=\"" + NatToDecimal(q.number) + "\">"
    + Elem("div", "question-header",
        Elem("span", "question-number", "Soru " + NatToDecimal(q.number))
        + Elem("span", "question-points", NatToDecimal(q.points) + " Puan"))
    + Elem("div", "question-content", Plain("h4", q.text) + Elem("div", "question-options", RenderOptions(q.number, q.options)))
    + "</div>"
  }

  function RenderQuestions(qs: seq<Question>): string {
    if qs == [] then "" else RenderQuestion(qs[0]) + RenderQuestions(qs[1..])
  }

  function Slide(n: nat, active: bool, inner: string): string {
    "<div class=\"slide" + (if active then " active" else "") + "\" id=\"slide" + NatToDecimal(n) + "\">"
    + Elem("div", "slide-content", inner) + "</div>"
  }

  /** The page: the navigation bar with its fixed "1 / 5" indicator, the slides, the
      completion section and the script's `totalSlides`. */
  function RenderDeck(k: Deck): string {
    "<!DOCTYPE html>" + "<html lang=\"tr\">" + "<head><meta " + "charset=\"UTF-8\">" + Plain("title", k.title) + "</head><body>"
    + Elem("div", "slide-indicator", "<span id=\"currentSlide\">" + "1</span> / <span " + "id=\"totalSlides\">" + "5</span>")
    + Slide(1, true,
        Elem("h1", "hero-title", k.title) + Elem("p", "hero-subtitle", k.subtitle)
        + Elem("div", "difficulty-badge " + k.levelClass, k.badge)
        + Elem("div", "objectives-grid", RenderObjectives(k.objectives)))
    + Slide(2, false,
        Plain("h3", k.title + " Nedir?") + Plain("p", k.prompt)
        + (match k.audience case None => "" case Some(a) => Elem("div", "target-audience", Plain("h4", "Hedef Kitle") + Plain("p", a))))
    + Slide(3, false, Plain("h2", "Ana Konular"))
    + Slide(4, false, Plain("h2", "Detaylı İçerik") + Plain("p", k.detail))
    + (match k.quiz case None => "" case Some(qs) => Slide(5, false, Elem("div", "quiz-questions", RenderQuestions(qs))))
    + Elem("div", "completion-section", Plain("p", k.title + " eğitimini başarıyla " + "tamamladınız."))
    + "<script>let " + "totalSlides = " + NatToDecimal(k.totalSlides) + ";</script>"
    + "</body></html>"
  }

  /** `generateProfessionalContent`. */
  function GenerateProfessionalContent(d: ContentRequest): string {
    RenderDeck(BuildDeck(d))
  }

  // ---------------------------------------------------------------------------
  // Properties of the deck

  /** The quiz slide is there exactly when a quiz is asked for, with
      `min(numberOfQuestions || 3, 5)` questions numbered from 1, five points each,
      each with the options A, B, C and D; the deck has five slides with the quiz
      and four without. */
  lemma DeckQuizShape(d: ContentRequest)
    ensures BuildDeck(d).quiz.Some? <==> d.includeQuiz
    ensures BuildDeck(d).totalSlides == (if d.includeQuiz then 5 else 4)
    ensures BuildDeck(d).quiz.Some? ==>
      var qs := BuildDeck(d).quiz.value;
      |qs| == ServiceQuizLength(d.numberOfQuestions) && |qs| <= 5
      && forall i :: 0 <= i < |qs| ==>
           qs[i].number == i + 1 && qs[i].points == 5 && |qs[i].options| == 4
           && qs[i].options[0].value == 'A' && qs[i].options[1].value == 'B'
           && qs[i].options[2].value == 'C' && qs[i].options[3].value == 'D'
  {
    assert |QuizOptions| == 4 && QuizOptions[0].value == 'A' && QuizOptions[1].value == 'B'
      && QuizOptions[2].value == 'C' && QuizOptions[3].value == 'D';
    if d.includeQuiz {
      var qs := Questions(d);
      forall i | 0 <= i < |qs|
        ensures qs[i] == MakeQuestion(i + 1, d.title)
      {
      }
    }
  }

  /** The objectives are the field's lines that hold a non-white-space character,
      in their order, numbered from 0; the default objective appears only for an empty
      field. */
  lemma DeckObjectives(d: ContentRequest)
    ensures var os := BuildDeck(d).objectives;
      (forall i :: 0 <= i < |os| ==> os[i].index == i)
      && (d.learningObjectives == "" ==> |os| == 1 && os[0].text == DefaultObjective)
      && (d.learningObjectives != "" ==>
            IsNonBlankSubsequence(seq(|os|, i requires 0 <= i < |os| => os[i].text), Split(d.learningObjectives, '\n'))
            && forall i :: 0 <= i < |os| ==> HasNonSpace(os[i].text))
  {
    var os := BuildDeck(d).objectives;
    var texts := NewObjectives(d.learningObjectives);
    if d.learningObjectives != "" {
      KeepNonBlankSpec(Split(d.learningObjectives, '\n'));
      assert seq(|os|, i requires 0 <= i < |os| => os[i].text) == texts;
    }
  }

  /** A field made only of line breaks gives no objective at all, not the default one. */
  lemma OnlyNewlinesGiveNoObjectives(field: string)
    requires field != "" && forall k :: 0 <= k < |field| ==> field[k] == '\n'
    ensures NewObjectives(field) == []
  {
    SplitOnlySeparators(field, '\n');
    KeepNonBlankOfEmpty(Split(field, '\n'));
  }

  /** The audience block appears exactly when a target audience is given. */
  lemma DeckAudience(d: ContentRequest)
    ensures BuildDeck(d).audience.Some? <==> d.targetAudience != ""
    ensures BuildDeck(d).audience.Some? ==> BuildDeck(d).audience.value == d.targetAudience
  {
  }

  /** The badge shows the difficulty wording in capitals. */
  lemma BadgeWording()
    ensures ToUpperCase(DifficultyPhrase("beginner")) == "BAŞLANGIÇ SEVIYESI"
    ensures ToUpperCase(DifficultyPhrase("intermediate")) == "ORTA SEVIYE"
    ensures ToUpperCase(DifficultyPhrase("advanced")) == "ILERI SEVIYE"
  {
  }

}

/** The operations `scormServiceNew.ts` exports: content, preview, package and
    download. The AI call is made but its answer is not used. */
module ServiceNew {
  import opened Wrappers
  import opened Text
  import opened Request
  import opened Naming
  import opened Package
  import opened SlideDeck

  /** `generateSCORMContent`: `ai` is the outcome of the AI call, which is made for a
      valid request and then ignored. */
  function GenerateScormContent(d: ContentRequest, ai: Result<string, string>): (r: Result<string, string>)
    ensures r.Failure? <==> !IsValid(d)
    ensures r.Failure? ==> r.error == RequiredFieldsMessage
  {
    if !IsValid(d) then Failure(RequiredFieldsMessage)
    else
      match ai
      case Success(_) => Success(GenerateProfessionalContent(d))
      case Failure(_) => Success(GenerateProfessionalContent(d))
  }

  /** Whether the AI call succeeds or fails, and whatever it answers, the content is
      the fallback deck. */
  lemma AiOutcomeIgnored(d: ContentRequest, ai: Result<string, string>, other: Result<string, string>)
    requires IsValid(d)
    ensures GenerateScormContent(d, ai) == GenerateScormContent(d, other)
    ensures GenerateScormContent(d, ai) == Success(GenerateProfessionalContent(d))
  {
  }

  /** `previewSCORMContent`: any failure becomes its own message. */
  function PreviewScormContent(d: ContentRequest, ai: Result<string, string>): (r: Result<string, string>)
    ensures r.Failure? <==> !IsValid(d)
    ensures r.Failure? ==> r.error == PreviewError
    ensures r.Success? ==> GenerateScormContent(d, ai) == r
  {
    if !IsValid(d) then Failure(PreviewError)
    else
      match GenerateScormContent(d, ai)
      case Success(c) => Success(c)
      case Failure(_) => Failure(PreviewError)
  }

  /** The manifest of this service: organization `org1`, item `item1` with a mastery
      score of 80, resource `resource1` launching `index.html`. */
  function NewManifest(title: string): Manifest {
    Manifest(
      ManifestIdentifier(title), "1.0", "ADL SCORM", "1.2", None, "org1",
      [Organization("org1", title, [Item("item1", "resource1", None, title, Some(80))])],
      [Resource("resource1", "webcontent", "sco", IndexMember, [IndexMember])])
  }

  lemma NewManifestFacts(title: string)
    ensures WellFormed(NewManifest(title))
    ensures FilesPresent(NewManifest(title), ArchiveMembers)
    ensures NewManifest(title).identifier == ManifestIdentifier(title)
    ensures |NewManifest(title).resources| == 1 && NewManifest(title).resources[0].href == "index.html"
    ensures AllItems(NewManifest(title).organizations) == [Item("item1", "resource1", None, title, Some(80))]
  {
    var m := NewManifest(title);
    assert AllItems(m.organizations) == m.organizations[0].items + AllItems([]);
    assert HasResource(m, "resource1") by {
      assert m.resources[0] in m.resources;
    }
    assert m.organizations[0] in m.organizations;
  }

  /** The archive of a request: its page and its manifest. */
  function NewPackage(d: ContentRequest): map<string, string> {
    Archive(GenerateProfessionalContent(d), Render(NewManifest(d.title)))
  }
}

/** The two operations of the service that build the archive. */
module ServiceNewPackaging {
  import opened Wrappers
  import opened Text
  import opened Request
  import opened Naming
  import opened Package
  import opened ServiceNew

  /** `createSCORMPackage`: the archive for a valid request, its own message otherwise. */
  method CreateScormPackage(d: ContentRequest, ai: Result<string, string>) returns (r: Result<map<string, string>, string>)
    ensures r.Failure? <==> !IsValid(d)
    ensures r.Failure? ==> r.error == CreatePackageError
    ensures r.Success? ==> r.value == NewPackage(d)
  {
    var zip := new Zip();
    if !IsValid(d) {
      return Failure(CreatePackageError);
    }
    var content := GenerateScormContent(d, ai);
    FillArchive(zip, content.value, Render(NewManifest(d.title)));
    r := Success(zip.files);
  }


  method DownloadScormPackage(d: ContentRequest, ai: Result<string, string>) returns (r: Result<Download, string>)
    ensures !IsValid(d) ==> r == Failure(DownloadError)
    ensures IsValid(d) ==> r == Success(Download(FileName(d.title), NewPackage(d)))
  {
    if !IsValid(d) {
      return Failure(DownloadError);
    }
    var blob := CreateScormPackage(d, ai);
    r := Success(Download(FileName(d.title), blob.value));
  }
}
