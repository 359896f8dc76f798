/** The content-description record that every generator consumes, and the small
    field rules that the generators share. */
module Request {
  import opened Wrappers

  /** `SCORMGenerateData`. A string field that the caller leaves out is `""` here
      (both are falsy, which is all the generators test), an absent `includeQuiz` is
      `false` and an absent `numberOfQuestions` is `0`. `description` keeps the
      difference, because an absent description is interpolated as "undefined". */
  datatype ContentRequest = ContentRequest(
    title: string,
    description: Option<string>,
    learningObjectives: string,
    prompt: string,
    contentType: string,
    targetAudience: string,
    includeQuiz: bool,
    numberOfQuestions: int,
    difficultyLevel: string,
    template: string)

  /** The validation gate `!data.title || !data.prompt` lets the request through. */
  predicate IsValid(d: ContentRequest) {
    d.title != "" && d.prompt != ""
  }

  /** The error every generator throws when the gate fails. */
  const RequiredFieldsMessage: string := "Başlık ve içerik " + "açıklaması zorunludur."

  /** The messages that `createSCORMPackage`, `downloadSCORMPackage` and
      `previewSCORMContent` throw in place of any error they catch. */
  const CreatePackageError: string := "SCORM paketi " + "oluşturulurken " + "bir hata oluştu."
  const DownloadError: string := "SCORM paketi " + "indirilirken " + "bir hata oluştu."
  const PreviewError: string := "İçerik önizlenirken " + "bir hata oluştu."

  /** The single objective shown when `learningObjectives` is absent or empty. */
  const DefaultObjective: string := "Bu içeriği tamamladığınızda " + "konuyu tam olarak " + "anlamış olacaksınız."

  /** A template-literal substitution `${value}` of an optional string. */
  function Interpolate(o: Option<string>): string {
    match o
    case None => "undefined"
    case Some(s) => s
  }

  /** The difficulty wording of the fallback generators: a three-way test on the raw level. */
  function DifficultyPhrase(level: string): string {
    if level == "beginner" then "başlangıç seviyesi"
    else if level == "intermediate" then "orta seviye"
    else "ileri seviye"
  }

  /** Only "beginner" and "intermediate" are recognised; every other level, including
      values outside the declared enumeration, gets the advanced wording. */
  lemma DifficultyPhraseDistinct(level: string)
    ensures DifficultyPhrase(level) == DifficultyPhrase("beginner") <==> level == "beginner"
    ensures DifficultyPhrase(level) == DifficultyPhrase("intermediate") <==> level == "intermediate"
    ensures DifficultyPhrase(level) == DifficultyPhrase("advanced") <==> level != "beginner" && level != "intermediate"
  {
  }

  function Min(a: int, b: int): int {
    if a < b then a else b
  }

  /** The length that `Array.from({ length: x })` gives for an integer `x`. */
  function ArrayLength(x: int): nat {
    if x < 0 then 0 else x
  }

  /** Number of generated quiz questions in both service files:
      `Array.from({ length: Math.min(data.numberOfQuestions || 3, 5) })`. */
  function ServiceQuizLength(n: int): (k: nat)
    ensures k <= 5
    ensures n == 0 ==> k == 3
    ensures 0 < n <= 5 ==> k == n
    ensures n >= 5 ==> k == 5
    ensures n < 0 ==> k == 0
  {
    ArrayLength(Min(if n != 0 then n else 3, 5))
  }
}
