/**
 * Server-side validation of a generation request: `GenerateFlashcardsSchema`
 * (a string `text` of 1000 to 10000 UTF-16 code units) and
 * `validateGenerateFlashcardsCommand`, which returns either the data or the
 * issue messages joined with ", ".
 */
module Validation {
  import opened Wrappers
  import opened Json
  import opened JsString
  import opened Schemas

  const MinLength: nat := 1000
  const MaxLength: nat := 10000
  const TooShortMessage: string := "Tekst musi zawiera\U{0107} co najmniej 1000 znak\U{00F3}w"
  const TooLongMessage: string := "Tekst nie mo\U{017C}e przekracza\U{0107} 10000 znak\U{00F3}w"

  datatype GenerateFlashcardsCommand = GenerateFlashcardsCommand(text: string)

  /** The `{ data?, error? }` object the function returns. */
  datatype CommandValidation = CommandValidation(data: Option<GenerateFlashcardsCommand>, error: Option<string>)

  /** The input has a string `text`. */
  predicate HasTextString(input: Json) {
    input.JObject? && "text" in input.fields && input.fields["text"].JString?
  }

  /** The issues `GenerateFlashcardsSchema.parse` raises, in zod's order. */
  function SchemaIssues(input: Json): (issues: seq<Issue>)
    ensures issues == [] <==> HasTextString(input) && MinLength <= Utf16Length(input.fields["text"].s) <= MaxLength
  {
    if !input.JObject? then [NotAnObject(input)]
    else if StringIssue(input.fields, "text").Some? then [StringIssue(input.fields, "text").value]
    else
      var n := Utf16Length(input.fields["text"].s);
      (if n < MinLength then [Issue([Key("text")], TooShortMessage)] else [])
      + (if n > MaxLength then [Issue([Key("text")], TooLongMessage)] else [])
  }

  function Messages(issues: seq<Issue>): (ms: seq<string>)
    ensures |ms| == |issues|
    ensures forall i :: 0 <= i < |issues| ==> ms[i] == issues[i].message
  {
    seq(|issues|, i requires 0 <= i < |issues| => issues[i].message)
  }

  /** `validateGenerateFlashcardsCommand(input)`. */
  function ValidateGenerateFlashcardsCommand(input: Json): (r: CommandValidation)
    ensures r.data.Some? <==> r.error.None?
    ensures r.data.Some? <==> HasTextString(input) && MinLength <= Utf16Length(input.fields["text"].s) <= MaxLength
    ensures r.data.Some? ==> r.data.value.text == input.fields["text"].s
    ensures HasTextString(input) && Utf16Length(input.fields["text"].s) < MinLength ==> r.error == Some(TooShortMessage)
    ensures HasTextString(input) && Utf16Length(input.fields["text"].s) > MaxLength ==> r.error == Some(TooLongMessage)
  {
    var issues := SchemaIssues(input);
    if issues == [] then CommandValidation(Some(GenerateFlashcardsCommand(input.fields["text"].s)), None)
    else CommandValidation(None, Some(Join(Messages(issues), ", ")))
  }

  /**
   * The schema raises at most one issue (one key, and a text cannot be both
   * too short and too long), so the joined error is always a single message.
   */
  lemma AtMostOneIssue(input: Json)
    ensures |SchemaIssues(input)| <= 1
    ensures ValidateGenerateFlashcardsCommand(input).error.Some? ==>
      ValidateGenerateFlashcardsCommand(input).error.value == SchemaIssues(input)[0].message
  {
  }

  /** A request body carrying only `text`. */
  function Body(text: string): Json {
    JObject(map["text" := JString(text)])
  }

  /** The request bodies the endpoint accepts are exactly those of 1000 to 10000 code units. */
  lemma AcceptsExactlyTheRange(text: string)
    ensures ValidateGenerateFlashcardsCommand(Body(text)).data == Some(GenerateFlashcardsCommand(text))
        <==> MinLength <= Utf16Length(text) <= MaxLength
  {
  }

  /** A body without a string `text` is refused with zod's type message. */
  lemma MissingTextRefused()
    ensures ValidateGenerateFlashcardsCommand(JObject(map[])) == CommandValidation(None, Some("Required"))
  {
  }
}
