/** The fixed question sequence of the Appearance form: nine questions,
    asked in this order, each filling one form field. */
module Catalog {

  /** A question: its id and the form field its answer fills. Its text is
      `Prompt` of its index. */
  datatype Question = Question(id: string, field: string)

  const AgreeToNotify: string := "agreeToNotify"

  const Questions: seq<Question> := [
    Question("county", "county"),
    Question("court", "court"),
    Question("caseNumber", "caseNumber"),
    Question("plaintiff", "plaintiff"),
    Question("defendant", "defendant"),
    Question(AgreeToNotify, AgreeToNotify),
    Question("mailingAddress", "mailingAddress"),
    Question("phone", "phone"),
    Question("email", "email")
  ]

  /** An index into the catalog. */
  type QuestionIndex = i: int | 0 <= i < 9

  /** The text of question `i`, as it is asked. */
  function Prompt(i: QuestionIndex): string {
    match i
    case 0 => "Let's start with the court information. On the papers you received from the court, what County is listed at the very top?"
    case 1 => "And right below the County, what is the name of the Court (e.g., Superior Court, Small Claims Court)?"
    case 2 => "Great. Now, what is the Case Number? It should be labeled 'Cause No.' or 'Case No.'"
    case 3 => "What is the full name of the person or company suing you (the Plaintiff)?"
    case 4 => "And what is your full legal name as the Defendant?"
    case 5 => "The court requires you to keep your contact information updated. Do you agree to notify the court if your address or phone number changes? (Please answer 'yes' or 'no')"
    case 6 => "To make sure the court can contact you, what is your current mailing address? (Include street, city, state, and zip code)"
    case 7 => "What is your best contact phone number?"
    case _ => "And what is your email address?"
  }

  /** `QUESTIONS.length`. */
  const Count: nat := |Questions|

  /** The set of fields the first `n` questions fill. */
  function FieldsUpTo(n: nat): set<string>
    requires n <= Count
  {
    set i | 0 <= i < n :: Questions[i].field
  }

  /** The catalog's shape: nine questions, one field each, no field twice,
      and the yes/no field asked at index 5 and nowhere else. */
  lemma CatalogShape()
    ensures Count == 9
    ensures forall i, j :: 0 <= i < j < Count ==> Questions[i].field != Questions[j].field
    ensures forall i :: 0 <= i < Count ==> (Questions[i].field == AgreeToNotify <==> i == 5)
  {
  }

  /** Only question 5 asks the yes/no question. */
  lemma YesNoFieldOnlyAtFive(i: nat)
    requires i < Count
    ensures Questions[i].field == AgreeToNotify <==> i == 5
  {
    if i == 0 {} else if i == 1 {} else if i == 2 {} else if i == 3 {} else if i == 4 {}
    else if i == 5 {} else if i == 6 {} else if i == 7 {} else {}
  }
}
