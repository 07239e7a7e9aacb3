/**
 * The zod schemas of the OpenRouter types: `responseSchema`,
 * `flashcardSchema` and `flashcardsArraySchema`, as parsers from JSON values.
 * A zod object schema accepts an object (not an array, not null) whose listed
 * keys hold values of the listed types; it keeps only those keys and reports
 * one issue per offending key, in the order the keys are declared.
 */
module Schemas {
  import opened Wrappers
  import opened Json

  /** The value `responseSchema` produces: the externally visible result of a call. */
  datatype ParsedResponse = ParsedResponse(text: string, timestamp: real)

  /** The value `flashcardSchema` produces. */
  datatype RawFlashcard = RawFlashcard(front: string, back: string)

  /** One step of a zod issue path: an object key or an array index. */
  datatype PathSegment = Key(name: string) | Index(i: nat)

  /** A zod issue: where the offending value sits and zod's message for it. */
  datatype Issue = Issue(path: seq<PathSegment>, message: string)

  /** zod's `invalid_type` message; an absent key is reported as "Required". */
  function InvalidTypeMessage(expected: string, received: Access): string
    requires !received.TypeError?
  {
    if received.Undefined? then "Required"
    else "Expected " + expected + ", received " + TypeName(received.v)
  }

  /** The issue `z.string()` raises for the value under `key`, if any. */
  function StringIssue(fields: map<string, Json>, key: string): (o: Option<Issue>)
    ensures o.None? <==> key in fields && fields[key].JString?
  {
    if key in fields && fields[key].JString? then None
    else Some(Issue([Key(key)], InvalidTypeMessage("string", Member(JObject(fields), key))))
  }

  /** The issue `z.number()` raises for the value under `key`, if any. */
  function NumberIssue(fields: map<string, Json>, key: string): (o: Option<Issue>)
    ensures o.None? <==> key in fields && fields[key].JNumber?
  {
    if key in fields && fields[key].JNumber? then None
    else Some(Issue([Key(key)], InvalidTypeMessage("number", Member(JObject(fields), key))))
  }

  function Issues(first: Option<Issue>, second: Option<Issue>): (r: seq<Issue>)
    ensures |r| == (if first.Some? then 1 else 0) + (if second.Some? then 1 else 0)
  {
    (if first.Some? then [first.value] else []) + (if second.Some? then [second.value] else [])
  }

  /** The issue a zod object schema raises for a value that is not an object. */
  function NotAnObject(v: Json): Issue {
    Issue([], "Expected object, received " + TypeName(v))
  }

  /** `responseSchema.parse(v)`: `text` must be a string and `timestamp` a number. */
  function ParseResponse(v: Json): (r: Result<ParsedResponse, seq<Issue>>)
    ensures r.Success? <==>
      v.JObject? && "text" in v.fields && v.fields["text"].JString?
      && "timestamp" in v.fields && v.fields["timestamp"].JNumber?
    ensures r.Success? ==> r.value.text == v.fields["text"].s && r.value.timestamp == v.fields["timestamp"].n
    ensures r.Failure? ==> 1 <= |r.error| <= 2
  {
    if !v.JObject? then Failure([NotAnObject(v)])
    else
      var issues := Issues(StringIssue(v.fields, "text"), NumberIssue(v.fields, "timestamp"));
      if issues == [] then Success(ParsedResponse(v.fields["text"].s, v.fields["timestamp"].n))
      else Failure(issues)
  }

  /** The object a caller hands to `responseSchema` for a given result. */
  function ResponseObject(p: ParsedResponse): Json {
    JObject(map["text" := JString(p.text), "timestamp" := JNumber(p.timestamp)])
  }

  /** Every result, empty text included, survives the schema unchanged. */
  lemma ParseResponseRoundTrip(p: ParsedResponse)
    ensures ParseResponse(ResponseObject(p)) == Success(p)
  {
  }

  /**
   * What the schema accepts is exactly its two typed keys: the accepted object
   * restricted to `text` and `timestamp` is the object of the parsed result;
   * any other key is dropped.
   */
  lemma ParseResponseStrips(v: Json)
    requires ParseResponse(v).Success?
    ensures ResponseObject(ParseResponse(v).value).fields
            == map k | k in v.fields && k in {"text", "timestamp"} :: v.fields[k]
  {
    var p := ParseResponse(v).value;
    var m := map k | k in v.fields && k in {"text", "timestamp"} :: v.fields[k];
    assert m.Keys == {"text", "timestamp"};
  }

  /** No partial acceptance: one mistyped field rejects the whole object, with an issue naming that field. */
  lemma ParseResponseRejectsMistypedField(v: Json, key: string)
    requires v.JObject? && key in {"text", "timestamp"}
    requires key !in v.fields || (key == "text" && !v.fields[key].JString?) || (key == "timestamp" && !v.fields[key].JNumber?)
    ensures ParseResponse(v).Failure?
    ensures exists k :: 0 <= k < |ParseResponse(v).error| && ParseResponse(v).error[k].path == [Key(key)]
  {
    var issues := Issues(StringIssue(v.fields, "text"), NumberIssue(v.fields, "timestamp"));
    if key == "text" {
      assert issues[0].path == [Key(key)];
    } else {
      assert issues[|issues| - 1].path == [Key(key)];
    }
  }

  /** `flashcardSchema.parse(v)`: `front` and `back` must be strings (empty ones included). */
  function ParseFlashcard(v: Json): (r: Result<RawFlashcard, seq<Issue>>)
    ensures r.Success? <==>
      v.JObject? && "front" in v.fields && v.fields["front"].JString?
      && "back" in v.fields && v.fields["back"].JString?
    ensures r.Success? ==> r.value == RawFlashcard(v.fields["front"].s, v.fields["back"].s)
    ensures r.Failure? ==> 1 <= |r.error| <= 2
  {
    if !v.JObject? then Failure([NotAnObject(v)])
    else
      var issues := Issues(StringIssue(v.fields, "front"), StringIssue(v.fields, "back"));
      if issues == [] then Success(RawFlashcard(v.fields["front"].s, v.fields["back"].s))
      else Failure(issues)
  }

  function FlashcardObject(c: RawFlashcard): Json {
    JObject(map["front" := JString(c.front), "back" := JString(c.back)])
  }

  lemma ParseFlashcardRoundTrip(c: RawFlashcard)
    ensures ParseFlashcard(FlashcardObject(c)) == Success(c)
  {
  }

  /** An issue moved under array index `i`. */
  function AtIndex(i: nat, issues: seq<Issue>): (r: seq<Issue>)
    ensures |r| == |issues|
  {
    seq(|issues|, k requires 0 <= k < |issues| => Issue([Index(i)] + issues[k].path, issues[k].message))
  }

  /** zod's array element loop: every element is parsed and every issue is collected. */
  function ParseItems(items: seq<Json>): (r: Result<seq<RawFlashcard>, seq<Issue>>)
    ensures r.Success? <==> forall i :: 0 <= i < |items| ==> ParseFlashcard(items[i]).Success?
    ensures r.Success? ==> |r.value| == |items|
    ensures r.Success? ==> forall i :: 0 <= i < |items| ==> r.value[i] == ParseFlashcard(items[i]).value
    ensures r.Failure? ==> |r.error| > 0
  {
    if items == [] then Success([])
    else
      var n := |items| - 1;
      var init := ParseItems(items[..n]);
      var last := ParseFlashcard(items[n]);
      match (init, last)
      case (Success(cards), Success(card)) => Success(cards + [card])
      case (Success(_), Failure(e)) => Failure(AtIndex(n, e))
      case (Failure(e), Success(_)) => Failure(e)
      case (Failure(e1), Failure(e2)) => Failure(e1 + AtIndex(n, e2))
  }

  /** `flashcardsArraySchema.parse(v)`. */
  function ParseFlashcards(v: Json): (r: Result<seq<RawFlashcard>, seq<Issue>>)
    ensures r.Success? <==> v.JArray? && forall i :: 0 <= i < |v.items| ==> ParseFlashcard(v.items[i]).Success?
    ensures r.Success? ==> |r.value| == |v.items|
    ensures r.Success? ==> forall i :: 0 <= i < |v.items| ==> r.value[i] == ParseFlashcard(v.items[i]).value
  {
    if v.JArray? then ParseItems(v.items) else Failure([Issue([], "Expected array, received " + TypeName(v))])
  }

  /** The empty array is a valid (empty) list of flashcards. */
  lemma EmptyFlashcardsAccepted()
    ensures ParseFlashcards(JArray([])) == Success([])
  {
  }

  /** Encoding a list of flashcards as JSON and parsing it back gives the list. */
  lemma {:induction false} ParseFlashcardsRoundTrip(cards: seq<RawFlashcard>)
    ensures ParseFlashcards(JArray(seq(|cards|, i requires 0 <= i < |cards| => FlashcardObject(cards[i])))) == Success(cards)
  {
    var items := seq(|cards|, i requires 0 <= i < |cards| => FlashcardObject(cards[i]));
    forall i | 0 <= i < |items|
      ensures ParseFlashcard(items[i]) == Success(cards[i])
    {
      ParseFlashcardRoundTrip(cards[i]);
    }
    var r := ParseFlashcards(JArray(items));
    assert r.Success?;
    assert r.value == cards;
  }
}
