/**
 * `parseAiResponse`: turning the model's free-form answer into flashcard
 * proposals. The answer must not be blank; a trailing `[...]` segment is
 * located with the regular expression `/\[[\s\S]*?\](?=\s*$)/` (otherwise the
 * trimmed answer is used), parsed as JSON, required to be an array of cards
 * with truthy `front` and `back`, and every card is tagged `source: "ai-full"`.
 * Every failure is rethrown behind one fixed prefix.
 *
 * `JSON.parse` is a parameter: a function from text to a JSON value or the
 * message of the SyntaxError it throws.
 */
module AiParser {
  import opened Wrappers
  import opened Json
  import opened JsString
  import Schemas

  type JsonParser = string -> Result<Json, string>

  const ErrorPrefix: string := "B\U{0142}\U{0105}d parsowania odpowiedzi AI: "
  const EmptyResponseMessage: string := "Otrzymano pust\U{0105} odpowied\U{017A} od API"
  const NotArrayMessage: string := "Odpowied\U{017A} nie jest tablic\U{0105}"
  /** V8's message for `card.front` when `card` is `null`. */
  const NullCardMessage: string := "Cannot read properties of null (reading 'front')"
  const AiSource: string := "ai-full"

  /** The message for the card at 1-based `position` that lacks a truthy `front` or `back`. */
  function MissingFieldsMessage(position: nat): string {
    "Fiszka " + NatToString(position) + " nie zawiera wymaganych p\U{00F3}l front i back"
  }

  // ---------------------------------------------------------------------------
  // The regular expression, as a backtracking matcher runs it.

  /** `\](?=\s*$)` matches at `q`: a `]` followed only by whitespace. */
  predicate ClosesAt(s: string, q: nat) {
    q < |s| && s[q] == ']' && AllWhitespace(s[q + 1..])
  }

  /** The lazy `[\s\S]*?` tries ends from `q` upward and stops at the first that closes. */
  function LazyClose(s: string, q: nat): (r: Option<nat>)
    ensures r.Some? ==> q <= r.value && ClosesAt(s, r.value)
    decreases |s| - q
  {
    if q >= |s| then None
    else if ClosesAt(s, q) then Some(q)
    else LazyClose(s, q + 1)
  }

  /** The leftmost start position from `p` on at which the whole expression matches. */
  function SearchFrom(s: string, p: nat): (r: Option<string>)
    decreases |s| - p
  {
    if p >= |s| then None
    else if s[p] == '[' then
      match LazyClose(s, p + 1)
      case Some(q) => Some(s[p..q + 1])
      case None => SearchFrom(s, p + 1)
    else SearchFrom(s, p + 1)
  }

  /** `response.match(/\[[\s\S]*?\](?=\s*$)/)`: the matched text, if any. */
  function RegexMatch(s: string): Option<string> {
    SearchFrom(s, 0)
  }

  // ---------------------------------------------------------------------------
  // What the regular expression finds, stated without it.

  /** The first index from `from` on that holds a `[`. */
  function FirstOpen(s: string, from: nat): (r: Option<nat>)
    ensures r.Some? ==> from <= r.value < |s| && s[r.value] == '['
    ensures r.Some? ==> forall i :: from <= i < r.value ==> s[i] != '['
    ensures r.None? ==> forall i :: from <= i < |s| ==> s[i] != '['
    decreases |s| - from
  {
    if from >= |s| then None
    else if s[from] == '[' then Some(from)
    else FirstOpen(s, from + 1)
  }

  /** The last non-whitespace character of `s` is a `]`. */
  predicate EndsWithClose(s: string) {
    var e := TrimEnd(s);
    |e| > 0 && e[|e| - 1] == ']'
  }

  /**
   * The trailing array segment: when the last non-whitespace character is a
   * `]` and a `[` occurs before it, the text from the first `[` to that `]`.
   */
  function TrailingArray(s: string): Option<string> {
    var e := TrimEnd(s);
    if EndsWithClose(s) then
      match FirstOpen(s, 0)
      case Some(p) => if p < |e| - 1 then Some(s[p..|e|]) else None
      case None => None
    else None
  }

  /** The only `]` that can close the expression is the last non-whitespace character. */
  lemma ClosesAtIsLastNonWhitespace(s: string, q: nat)
    ensures ClosesAt(s, q) <==> EndsWithClose(s) && q == |TrimEnd(s)| - 1
  {
    var e := TrimEnd(s);
    if ClosesAt(s, q) {
      assert !IsWhitespace(s[q]);
    }
    if EndsWithClose(s) && q == |e| - 1 {
      assert s[q] == e[|e| - 1];
      assert s[q + 1..] == s[|e|..];
    }
  }

  lemma {:induction false} LazyCloseFinds(s: string, q: nat)
    ensures LazyClose(s, q) == if EndsWithClose(s) && q <= |TrimEnd(s)| - 1 then Some(|TrimEnd(s)| - 1) else None
    decreases |s| - q
  {
    ClosesAtIsLastNonWhitespace(s, q);
    if q < |s| && !ClosesAt(s, q) {
      LazyCloseFinds(s, q + 1);
    }
  }

  lemma {:induction false} SearchFromFinds(s: string, p: nat)
    ensures SearchFrom(s, p) ==
      if EndsWithClose(s) && FirstOpen(s, p).Some? && FirstOpen(s, p).value < |TrimEnd(s)| - 1
      then Some(s[FirstOpen(s, p).value..|TrimEnd(s)|]) else None
    decreases |s| - p
  {
    if p < |s| {
      if s[p] == '[' {
        LazyCloseFinds(s, p + 1);
        if LazyClose(s, p + 1).None? {
          SearchFromFinds(s, p + 1);
        }
      } else {
        SearchFromFinds(s, p + 1);
      }
    }
  }

  /** The regular expression finds exactly the trailing array segment. */
  lemma RegexMatchIsTrailingArray(s: string)
    ensures RegexMatch(s) == TrailingArray(s)
  {
    SearchFromFinds(s, 0);
  }

  /** The text handed to `JSON.parse`: the matched segment, or else the trimmed answer. */
  function Candidate(response: string): (c: string)
    ensures TrailingArray(response).Some? ==> c == TrailingArray(response).value
    ensures TrailingArray(response).None? ==> c == Trim(response)
  {
    RegexMatchIsTrailingArray(response);
    match RegexMatch(response)
    case Some(m) => m
    case None => Trim(response)
  }

  // ---------------------------------------------------------------------------
  // Card checks and the parser.

  /** A card passes `if (!card.front || !card.back)`: not null, and both fields truthy. */
  predicate ValidCard(card: Json) {
    !card.JNull? && TruthyAccess(Member(card, "front")) && TruthyAccess(Member(card, "back"))
  }

  /** The first card from `from` on that fails the check, as `forEach` meets it. */
  function FirstBadCard(items: seq<Json>, from: nat): (r: Option<nat>)
    ensures r.Some? ==> from <= r.value < |items| && !ValidCard(items[r.value])
    ensures r.Some? ==> forall i :: from <= i < r.value ==> ValidCard(items[i])
    ensures r.None? ==> forall i :: from <= i < |items| ==> ValidCard(items[i])
    decreases |items| - from
  {
    if from >= |items| then None
    else if !ValidCard(items[from]) then Some(from)
    else FirstBadCard(items, from + 1)
  }

  /** The message thrown for the failing card at index `i`. */
  function CardError(card: Json, i: nat): string {
    if card.JNull? then NullCardMessage else MissingFieldsMessage(i + 1)
  }

  /** `{...card, source: "ai-full"}` for a card that passed the check. */
  function Tag(card: Json): (t: Json)
    requires ValidCard(card)
    ensures t.JObject? && t.fields.Keys == card.fields.Keys + {"source"}
    ensures t.fields["source"] == JString(AiSource)
    ensures forall k :: k in card.fields && k != "source" ==> t.fields[k] == card.fields[k]
  {
    JObject(card.fields["source" := JString(AiSource)])
  }

  function Fail<T>(message: string): (r: Result<T, string>)
    ensures r.Failure? && |ErrorPrefix| <= |r.error| && r.error[..|ErrorPrefix|] == ErrorPrefix
  {
    Failure(ErrorPrefix + message)
  }

  /** `parseAiResponse(response)`. */
  function ParseAiResponse(response: string, parse: JsonParser): (r: Result<seq<Json>, string>)
    ensures AllWhitespace(response) ==> r == Failure(ErrorPrefix + EmptyResponseMessage)
    ensures r.Failure? ==> |ErrorPrefix| <= |r.error| && r.error[..|ErrorPrefix|] == ErrorPrefix
    ensures !AllWhitespace(response) && parse(Candidate(response)).Failure? ==>
      r == Failure(ErrorPrefix + parse(Candidate(response)).error)
    ensures r.Success? <==>
      && !AllWhitespace(response)
      && parse(Candidate(response)).Success?
      && parse(Candidate(response)).value.JArray?
      && forall i :: 0 <= i < |parse(Candidate(response)).value.items| ==> ValidCard(parse(Candidate(response)).value.items[i])
    ensures r.Success? ==> var items := parse(Candidate(response)).value.items;
      && |r.value| == |items|
      && forall i :: 0 <= i < |items| ==> ValidCard(items[i]) && r.value[i] == Tag(items[i])
  {
    if response == "" || Trim(response) == "" then Fail(EmptyResponseMessage)
    else
      match parse(Candidate(response))
      case Failure(syntaxError) => Fail(syntaxError)
      case Success(v) =>
        if !v.JArray? then Fail(NotArrayMessage)
        else
          match FirstBadCard(v.items, 0)
          case Some(i) => Fail(CardError(v.items[i], i))
          case None => Success(seq(|v.items|, i requires 0 <= i < |v.items| => Tag(v.items[i])))
  }

  /** A blank answer is refused before `JSON.parse` is consulted: the parser makes no difference. */
  lemma BlankNeverParsed(response: string, p1: JsonParser, p2: JsonParser)
    requires AllWhitespace(response)
    ensures ParseAiResponse(response, p1) == ParseAiResponse(response, p2) == Failure(ErrorPrefix + EmptyResponseMessage)
  {
  }

  /** Only the candidate text is parsed: parsers that agree on it give the same result. */
  lemma OnlyCandidateParsed(response: string, p1: JsonParser, p2: JsonParser)
    requires p1(Candidate(response)) == p2(Candidate(response))
    ensures ParseAiResponse(response, p1) == ParseAiResponse(response, p2)
  {
  }

  /** A parsed value that is not an array is refused with the fixed message. */
  lemma NotArrayRefused(response: string, parse: JsonParser)
    requires !AllWhitespace(response)
    requires parse(Candidate(response)).Success? && !parse(Candidate(response)).value.JArray?
    ensures ParseAiResponse(response, parse) == Failure(ErrorPrefix + NotArrayMessage)
  {
  }

  /**
   * The first card with a falsy `front` or `back` is named by its 1-based
   * position, even when later cards are fine or also broken.
   */
  lemma FirstBadCardNamed(response: string, parse: JsonParser, k: nat)
    requires !AllWhitespace(response)
    requires parse(Candidate(response)).Success? && parse(Candidate(response)).value.JArray?
    requires var items := parse(Candidate(response)).value.items;
      && k < |items| && !ValidCard(items[k]) && !items[k].JNull?
      && forall i :: 0 <= i < k ==> ValidCard(items[i])
    ensures ParseAiResponse(response, parse) == Failure(ErrorPrefix + MissingFieldsMessage(k + 1))
  {
    var items := parse(Candidate(response)).value.items;
    assert FirstBadCard(items, 0) == Some(k);
  }

  /**
   * A `null` card reached before any other bad card makes `card.front` throw
   * the runtime's TypeError, whose message follows the prefix.
   */
  lemma NullCardNamed(response: string, parse: JsonParser, k: nat)
    requires !AllWhitespace(response)
    requires parse(Candidate(response)).Success? && parse(Candidate(response)).value.JArray?
    requires var items := parse(Candidate(response)).value.items;
      && k < |items| && items[k].JNull?
      && forall i :: 0 <= i < k ==> ValidCard(items[i])
    ensures ParseAiResponse(response, parse) == Failure(ErrorPrefix + NullCardMessage)
  {
    var items := parse(Candidate(response)).value.items;
    assert FirstBadCard(items, 0) == Some(k);
  }

  /** An empty array is accepted and yields no proposals. */
  lemma EmptyArrayAccepted(response: string, parse: JsonParser)
    requires !AllWhitespace(response)
    requires parse(Candidate(response)) == Success(JArray([]))
    ensures ParseAiResponse(response, parse) == Success([])
  {
  }

  /**
   * For cards whose `front` and `back` are strings, the parser's truthiness
   * check is `flashcardSchema` plus non-emptiness: the schema alone would also
   * accept empty strings.
   */
  lemma ValidCardVersusSchema(card: Json)
    requires card.JObject? && "front" in card.fields && "back" in card.fields
    requires card.fields["front"].JString? && card.fields["back"].JString?
    ensures Schemas.ParseFlashcard(card).Success?
    ensures ValidCard(card) <==> card.fields["front"].s != "" && card.fields["back"].s != ""
  {
  }

  /** A worked example: prose before the array and a newline after it. */
  lemma TrailingArrayExample()
    ensures Candidate("Fiszki: [1]\n") == "[1]"
  {
    var s := "Fiszki: [1]\n";
    assert IsWhitespace(s[11]);
    assert TrimEnd(s[..11]) == s[..11];
    assert TrimEnd(s) == s[..11];
    assert FirstOpen(s, 8) == Some(8);
    assert FirstOpen(s, 0) == Some(8);
    assert EndsWithClose(s);
    assert s[8..11] == "[1]";
    assert TrailingArray(s) == Some("[1]");
  }
}
