/**
 * The configuration of the OpenRouter client: construction with defaults,
 * the token check, and the merge performed by `updateConfiguration`.
 *
 * A patch field that is `None` stands for a key that is absent; `Some(v)`
 * for a key that holds `v`.
 */
module OpenRouterConfig {
  import opened Wrappers

  /** Generation parameters sent with every request (JavaScript numbers). */
  datatype ModelParams = ModelParams(temperature: real, maxTokens: real, frequencyPenalty: real, presencePenalty: real)

  /** The stored configuration of a client. */
  datatype Configuration = Configuration(apiToken: string, systemMessage: string, modelName: string, modelParams: ModelParams)

  /** Model parameters as a caller may supply them, any of them missing. */
  datatype ParamsPatch = ParamsPatch(temperature: Option<real>, maxTokens: Option<real>, frequencyPenalty: Option<real>, presencePenalty: Option<real>)

  /** A configuration as a caller may supply it to the constructor or to `updateConfiguration`. */
  datatype ConfigPatch = ConfigPatch(apiToken: Option<string>, systemMessage: Option<string>, modelName: Option<string>, modelParams: Option<ParamsPatch>)

  const DefaultSystemMessage: string := "System: Prosimy o zachowanie tonu profesjonalnego."
  const DefaultModelName: string := "deepseek/deepseek-v3-base:free"
  const DefaultParams: ModelParams := ModelParams(0.7, 150.0, 0.0, 0.0)
  const NoParams: ParamsPatch := ParamsPatch(None, None, None, None)
  const EmptyPatch: ConfigPatch := ConfigPatch(None, None, None, None)

  /** Thrown by the constructor when the token is missing or empty. */
  const MissingTokenMessage: string := "API token jest wymagany do inicjalizacji serwisu OpenRouter"
  /** Thrown by `updateConfiguration` when the merged token is empty. */
  const EmptyTokenMessage: string := "API token nie mo\U{017C}e by\U{0107} pusty"

  /** `given || fallback` on a string: an absent or empty string is replaced. */
  function OrElse(given: Option<string>, fallback: string): (r: string)
    ensures given.Some? && given.value != "" ==> r == given.value
    ensures given.None? || given.value == "" ==> r == fallback
  {
    if given.Some? && given.value != "" then given.value else fallback
  }

  /**
   * Each parameter of `p` that is present replaces the one of `base`. This is
   * both `p.x ?? base.x` in the constructor and `{...base, ...p}` in
   * `updateConfiguration`: only an absent value falls back, so an explicit 0
   * is kept.
   */
  function MergeParams(base: ModelParams, p: ParamsPatch): (r: ModelParams)
    ensures r.temperature == (if p.temperature.Some? then p.temperature.value else base.temperature)
    ensures r.maxTokens == (if p.maxTokens.Some? then p.maxTokens.value else base.maxTokens)
    ensures r.frequencyPenalty == (if p.frequencyPenalty.Some? then p.frequencyPenalty.value else base.frequencyPenalty)
    ensures r.presencePenalty == (if p.presencePenalty.Some? then p.presencePenalty.value else base.presencePenalty)
  {
    ModelParams(
      p.temperature.GetOr(base.temperature),
      p.maxTokens.GetOr(base.maxTokens),
      p.frequencyPenalty.GetOr(base.frequencyPenalty),
      p.presencePenalty.GetOr(base.presencePenalty))
  }

  /**
   * The constructor: fills defaults and then rejects a missing or empty
   * token. The token itself is never defaulted.
   */
  function Construct(input: ConfigPatch): (r: Result<Configuration, string>)
    ensures r.Failure? <==> input.apiToken.None? || input.apiToken.value == ""
    ensures r.Failure? ==> r.error == MissingTokenMessage
    ensures r.Success? ==> r.value.apiToken == input.apiToken.value
    ensures r.Success? ==> r.value.systemMessage != "" && r.value.modelName != ""
    ensures r.Success? ==> r.value.systemMessage == OrElse(input.systemMessage, DefaultSystemMessage)
    ensures r.Success? ==> r.value.modelName == OrElse(input.modelName, DefaultModelName)
    ensures r.Success? ==> r.value.modelParams == MergeParams(DefaultParams, input.modelParams.GetOr(NoParams))
  {
    var c := Configuration(
      input.apiToken.GetOr(""),
      OrElse(input.systemMessage, DefaultSystemMessage),
      OrElse(input.modelName, DefaultModelName),
      MergeParams(DefaultParams, input.modelParams.GetOr(NoParams)));
    if c.apiToken == "" then Failure(MissingTokenMessage) else Success(c)
  }

  /** The patch that spells out every field of `c`. */
  function Full(c: Configuration): ConfigPatch {
    ConfigPatch(Some(c.apiToken), Some(c.systemMessage), Some(c.modelName),
      Some(ParamsPatch(Some(c.modelParams.temperature), Some(c.modelParams.maxTokens),
                       Some(c.modelParams.frequencyPenalty), Some(c.modelParams.presencePenalty))))
  }

  /**
   * Construction is a round trip on every configuration it can produce:
   * a configuration with a token, a system message and a model name is
   * rebuilt unchanged from its own fields.
   */
  lemma ConstructRoundTrip(c: Configuration)
    requires c.apiToken != "" && c.systemMessage != "" && c.modelName != ""
    ensures Construct(Full(c)) == Success(c)
  {
  }

  /** Constructing again from a constructed configuration changes nothing. */
  lemma ConstructIdempotent(input: ConfigPatch)
    requires Construct(input).Success?
    ensures Construct(Full(Construct(input).value)) == Construct(input)
  {
    ConstructRoundTrip(Construct(input).value);
  }

  /**
   * `||` and `??` differ: an empty system message or model name gets the
   * default, while a parameter given as 0 is kept.
   */
  lemma ConstructDefaults(token: string)
    requires token != ""
    ensures Construct(ConfigPatch(Some(token), Some(""), Some(""), Some(ParamsPatch(Some(0.0), None, None, None))))
         == Success(Configuration(token, DefaultSystemMessage, DefaultModelName, ModelParams(0.0, 150.0, 0.0, 0.0)))
    ensures Construct(ConfigPatch(Some(token), None, None, None))
         == Success(Configuration(token, DefaultSystemMessage, DefaultModelName, ModelParams(0.7, 150.0, 0.0, 0.0)))
  {
  }

  /** The documented ranges (temperature 0-1, penalties 0-2) are not enforced. */
  lemma RangesNotEnforced(token: string, p: ModelParams)
    requires token != ""
    ensures Construct(ConfigPatch(Some(token), None, None,
              Some(ParamsPatch(Some(p.temperature), Some(p.maxTokens), Some(p.frequencyPenalty), Some(p.presencePenalty)))))
         == Success(Configuration(token, DefaultSystemMessage, DefaultModelName, p))
  {
  }

  /** The state `updateConfiguration` leaves, and the error it throws if any. */
  datatype UpdateOutcome = UpdateOutcome(configuration: Configuration, error: Option<string>)

  /**
   * `updateConfiguration`: a shallow merge of the top-level fields with a
   * per-field merge of the model parameters, assigned BEFORE the token check.
   * When the merged token is empty the error is thrown but the merged
   * configuration stays in place. No defaults are applied on update.
   */
  function Update(c: Configuration, patch: ConfigPatch): (r: UpdateOutcome)
    ensures r.configuration.apiToken == (if patch.apiToken.Some? then patch.apiToken.value else c.apiToken)
    ensures r.configuration.systemMessage == (if patch.systemMessage.Some? then patch.systemMessage.value else c.systemMessage)
    ensures r.configuration.modelName == (if patch.modelName.Some? then patch.modelName.value else c.modelName)
    ensures patch.modelParams.None? ==> r.configuration.modelParams == c.modelParams
    ensures patch.modelParams.Some? ==> r.configuration.modelParams == MergeParams(c.modelParams, patch.modelParams.value)
    ensures r.error.Some? <==> r.configuration.apiToken == ""
    ensures r.error.Some? ==> r.error.value == EmptyTokenMessage
  {
    var merged := Configuration(
      patch.apiToken.GetOr(c.apiToken),
      patch.systemMessage.GetOr(c.systemMessage),
      patch.modelName.GetOr(c.modelName),
      MergeParams(c.modelParams, patch.modelParams.GetOr(NoParams)));
    UpdateOutcome(merged, if merged.apiToken == "" then Some(EmptyTokenMessage) else None)
  }

  /** Applying `first` and then `second` as one patch: the later value wins field by field. */
  function Then(first: ConfigPatch, second: ConfigPatch): ConfigPatch {
    var p1 := first.modelParams.GetOr(NoParams);
    var p2 := second.modelParams.GetOr(NoParams);
    ConfigPatch(
      if second.apiToken.Some? then second.apiToken else first.apiToken,
      if second.systemMessage.Some? then second.systemMessage else first.systemMessage,
      if second.modelName.Some? then second.modelName else first.modelName,
      if first.modelParams.None? && second.modelParams.None? then None
      else Some(ParamsPatch(
        if p2.temperature.Some? then p2.temperature else p1.temperature,
        if p2.maxTokens.Some? then p2.maxTokens else p1.maxTokens,
        if p2.frequencyPenalty.Some? then p2.frequencyPenalty else p1.frequencyPenalty,
        if p2.presencePenalty.Some? then p2.presencePenalty else p1.presencePenalty)))
  }

  /** Two successive updates leave the same configuration as their combined patch. */
  lemma UpdateCompose(c: Configuration, first: ConfigPatch, second: ConfigPatch)
    ensures Update(Update(c, first).configuration, second).configuration == Update(c, Then(first, second)).configuration
  {
  }

  /** An empty patch changes nothing and throws nothing for a valid configuration. */
  lemma UpdateEmptyPatch(c: Configuration)
    requires c.apiToken != ""
    ensures Update(c, EmptyPatch) == UpdateOutcome(c, None)
  {
  }

  /** A full patch replaces the whole configuration. */
  lemma UpdateWithFullPatch(c: Configuration, d: Configuration)
    ensures Update(c, Full(d)).configuration == d
  {
  }

  /** Updating only the temperature leaves every other field, and every other parameter, as it was. */
  lemma UpdateOnlyTemperature(c: Configuration, t: real)
    requires c.apiToken != ""
    ensures var r := Update(c, ConfigPatch(None, None, None, Some(ParamsPatch(Some(t), None, None, None))));
      && r.error.None?
      && r.configuration == c.(modelParams := c.modelParams.(temperature := t))
  {
  }

  /**
   * A failing update is not atomic: after the error is thrown the stored
   * configuration holds the empty token and every other patched field.
   */
  lemma FailedUpdateStillAssigns(c: Configuration, name: string)
    requires c.apiToken != "" && name != c.modelName
    ensures var r := Update(c, ConfigPatch(Some(""), None, Some(name), None));
      && r.error == Some(EmptyTokenMessage)
      && r.configuration == c.(apiToken := "", modelName := name)
      && r.configuration != c
  {
  }

  /** Unlike the constructor, an update stores an empty system message as given. */
  lemma UpdateKeepsEmptySystemMessage(c: Configuration)
    requires c.apiToken != ""
    ensures Update(c, ConfigPatch(None, Some(""), None, None)) == UpdateOutcome(c.(systemMessage := ""), None)
  {
  }
}
