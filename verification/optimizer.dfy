/** The prompt optimizer: a per-model guideline profile, the request that asks an
    LLM to rewrite a prompt for a target model, and the rule that a failed call
    leaves the prompt as it was. The LLM is the oracle `chat`. */
module Optimizer {
  import opened Base
  import opened Text
  import opened Collections
  import opened LlmClient

  /** One entry of the guideline table. */
  datatype Profile = Profile(
    preferredFormat: string,
    instructionStyle: string,
    contextHandling: string,
    examples: string,
    reasoning: string)

  /** The target models the table knows, in its order. */
  const KnownTargets: seq<string> :=
    ["gpt-4", "gpt-4-turbo", "gpt-4-turbo-preview", "gpt-3.5-turbo", "claude-3-opus", "claude-3-sonnet", "claude-3-haiku"]

  /** The profile used for a target the table does not know. */
  const DefaultTarget := "gpt-4-turbo-preview"

  const OptimizerTemperature: real := 0.5

  const Gpt4Profile := Profile(
    "structured markdown with clear sections",
    "direct and explicit",
    "can handle large context windows efficiently",
    "benefit from few-shot examples",
    "responds well to step-by-step reasoning prompts")

  const Gpt4TurboProfile := Profile(
    "structured markdown with clear sections",
    "direct and explicit",
    "excellent at handling large context windows",
    "benefit from few-shot examples",
    "responds well to step-by-step reasoning prompts")

  const Gpt4TurboPreviewProfile := Profile(
    "structured markdown with clear sections",
    "direct and explicit",
    "excellent at handling large context windows",
    "benefit from few-shot examples",
    "responds well to step-by-step reasoning prompts")

  const Gpt35TurboProfile := Profile(
    "concise structured format",
    "clear and concise",
    "moderate context window",
    "benefit from examples but keep concise",
    "prefer simpler, more direct instructions")

  const Claude3OpusProfile := Profile(
    "natural language with clear structure",
    "conversational but precise",
    "excellent at handling large context",
    "benefit from detailed examples",
    "responds well to detailed explanations")

  const Claude3SonnetProfile := Profile(
    "natural language with clear structure",
    "conversational but precise",
    "good at handling large context",
    "benefit from examples",
    "responds well to explanations")

  const Claude3HaikuProfile := Profile(
    "concise natural language",
    "direct and concise",
    "moderate context window",
    "benefit from concise examples",
    "prefer simpler instructions")

  const SystemMessage :=
    "You are an expert at optimizing prompts for LLM models. Your goal is to improve prompt clarity, structure, and effectiveness for the target model while preserving all essential information and context."

  const OptimizationGoals :=
    "Optimization Goals:\n1. Improve clarity and structure according to target model preferences\n2. Ensure all essential context is preserved\n3. Optimize formatting for better model comprehension\n4. Enhance instruction clarity\n5. Adjust detail level based on model capabilities\n6. Improve organization and flow\n\nReturn the optimized prompt. Do not add explanations or comments, just return the improved prompt.\n"

  const FeatureHeading := "Feature Description:\n"

  const FeedbackSystemMessage := "You are an expert at optimizing prompts based on performance feedback."

  const FeedbackTail := "Please improve the prompt addressing the feedback while maintaining all essential information.\n"

  /* ---------------------------------------------------------------- guideline table */

  /** `MODEL_GUIDELINES.get(target)` */
  function Guidelines(target: string): (r: Option<Profile>)
    ensures r.Some? <==> target in KnownTargets
  {
    if target == "gpt-4" then Some(Gpt4Profile)
    else if target == "gpt-4-turbo" then Some(Gpt4TurboProfile)
    else if target == "gpt-4-turbo-preview" then Some(Gpt4TurboPreviewProfile)
    else if target == "gpt-3.5-turbo" then Some(Gpt35TurboProfile)
    else if target == "claude-3-opus" then Some(Claude3OpusProfile)
    else if target == "claude-3-sonnet" then Some(Claude3SonnetProfile)
    else if target == "claude-3-haiku" then Some(Claude3HaikuProfile)
    else None
  }

  /** `MODEL_GUIDELINES.get(target, MODEL_GUIDELINES["gpt-4-turbo-preview"])` */
  function ProfileFor(target: string): (r: Profile)
    ensures target in KnownTargets ==> Guidelines(target) == Some(r)
    ensures target !in KnownTargets ==> Guidelines(DefaultTarget) == Some(r)
  {
    match Guidelines(target)
    case Some(p) => p
    case None => Gpt4TurboPreviewProfile
  }

  /* ---------------------------------------------------------------- requests */

  /** The target line and the five guideline lines. */
  function GuidelineLines(target: string, p: Profile): string
  {
    Flatten([
      "Optimize the following prompt for the target model: " + target + "\n\n",
      "Target Model Guidelines:\n",
      "- Preferred Format: " + p.preferredFormat + "\n",
      "- Instruction Style: " + p.instructionStyle + "\n",
      "- Context Handling: " + p.contextHandling + "\n",
      "- Examples: " + p.examples + "\n",
      "- Reasoning: " + p.reasoning + "\n\n"])
  }

  /** The feature block, present only for a non-empty description. */
  function FeatureContext(featureDescription: Option<string>): (r: string)
    ensures r == "" <==> !HasText(featureDescription)
  {
    if HasText(featureDescription) then "\n" + (FeatureHeading + featureDescription.value) + "\n" else ""
  }

  /** `_build_optimization_prompt(prompt, target_model, model_guidelines, feature_description)` */
  function OptimizationPrompt(prompt: string, target: string, p: Profile, featureDescription: Option<string>): string
  {
    Flatten([GuidelineLines(target, p), FeatureContext(featureDescription),
             "\nCurrent Prompt:\n", prompt, "\n\n", OptimizationGoals])
  }

  /** The request sent when feedback is given. */
  function FeedbackPrompt(prompt: string, target: string, feedback: string): string
  {
    "Optimize the following prompt for " + target + " based on this feedback:\n\n"
    + "Feedback:\n" + feedback + "\n\n"
    + "Current Prompt:\n" + prompt + "\n\n" + FeedbackTail
  }

  /* ---------------------------------------------------------------- operations */

  /** `PromptOptimizer.__init__(api_key, optimizer_model)` */
  function NewOptimizer(apiKey: Option<string>, env: Option<string>, optimizerModel: string): (r: Result<Client>)
    ensures r.Ok? <==> HasText(apiKey) || HasText(env)
    ensures r.Ok? ==> r.value.model == optimizerModel
  {
    NewClient(apiKey, env, optimizerModel)
  }

  /** The outcome of the optimisation call for `prompt`. */
  function OptimizeCall(chat: ChatRequest -> ChatReply, client: Client, prompt: string, target: string,
                        featureDescription: Option<string>): Result<string>
  {
    MakeLlmCall(chat, client.model, SystemMessage,
                OptimizationPrompt(prompt, target, ProfileFor(target), featureDescription), None, OptimizerTemperature)
  }

  /** `optimize(prompt, target_model, feature_description)`: the LLM's rewrite, or the
      prompt itself when the call raises. */
  function Optimize(chat: ChatRequest -> ChatReply, client: Client, prompt: string, target: string,
                    featureDescription: Option<string>): (r: string)
    ensures OptimizeCall(chat, client, prompt, target, featureDescription).Err? ==> r == prompt
    ensures OptimizeCall(chat, client, prompt, target, featureDescription).Ok?
            ==> r == OptimizeCall(chat, client, prompt, target, featureDescription).value
  {
    match OptimizeCall(chat, client, prompt, target, featureDescription)
    case Ok(v) => v
    case Err(_) => prompt
  }

  /** `optimize_with_feedback(prompt, target_model, feedback)` */
  function OptimizeWithFeedback(chat: ChatRequest -> ChatReply, client: Client, prompt: string, target: string,
                                feedback: Option<string>): (r: string)
    ensures !HasText(feedback) ==> r == Optimize(chat, client, prompt, target, None)
    ensures HasText(feedback) ==>
      var call := MakeLlmCall(chat, client.model, FeedbackSystemMessage,
                              FeedbackPrompt(prompt, target, feedback.value), None, OptimizerTemperature);
      (call.Err? ==> r == prompt) && (call.Ok? ==> r == call.value)
  {
    if !HasText(feedback) then Optimize(chat, client, prompt, target, None)
    else
      match MakeLlmCall(chat, client.model, FeedbackSystemMessage,
                        FeedbackPrompt(prompt, target, feedback.value), None, OptimizerTemperature)
      case Ok(v) => v
      case Err(_) => prompt
  }

  /* ---------------------------------------------------------------- properties */

  lemma ShowsPart(a: string, m: string, b: string)
    ensures Contains(a + m + b, m)
  {
    ContainsSelf(m);
    ContainsInMiddle(a, m, b, m);
  }

  /** The guideline lines name the target and every field of the profile. */
  lemma GuidelineLinesShow(target: string, p: Profile)
    ensures Contains(GuidelineLines(target, p), target)
    ensures Contains(GuidelineLines(target, p), p.preferredFormat)
    ensures Contains(GuidelineLines(target, p), p.instructionStyle)
    ensures Contains(GuidelineLines(target, p), p.contextHandling)
    ensures Contains(GuidelineLines(target, p), p.examples)
    ensures Contains(GuidelineLines(target, p), p.reasoning)
  {
    var ls := [
      "Optimize the following prompt for the target model: " + target + "\n\n",
      "Target Model Guidelines:\n",
      "- Preferred Format: " + p.preferredFormat + "\n",
      "- Instruction Style: " + p.instructionStyle + "\n",
      "- Context Handling: " + p.contextHandling + "\n",
      "- Examples: " + p.examples + "\n",
      "- Reasoning: " + p.reasoning + "\n\n"];
    ShowsPart("Optimize the following prompt for the target model: ", target, "\n\n");
    FlattenContains(ls, 0, target);
    ShowsPart("- Preferred Format: ", p.preferredFormat, "\n");
    FlattenContains(ls, 2, p.preferredFormat);
    ShowsPart("- Instruction Style: ", p.instructionStyle, "\n");
    FlattenContains(ls, 3, p.instructionStyle);
    ShowsPart("- Context Handling: ", p.contextHandling, "\n");
    FlattenContains(ls, 4, p.contextHandling);
    ShowsPart("- Examples: ", p.examples, "\n");
    FlattenContains(ls, 5, p.examples);
    ShowsPart("- Reasoning: ", p.reasoning, "\n\n");
    FlattenContains(ls, 6, p.reasoning);
  }

  /** The pieces the optimisation request is made of. */
  lemma RequestPieces(prompt: string, target: string, p: Profile, featureDescription: Option<string>, i: int, t: string)
    requires 0 <= i < 6
    requires Contains([GuidelineLines(target, p), FeatureContext(featureDescription),
                       "\nCurrent Prompt:\n", prompt, "\n\n", OptimizationGoals][i], t)
    ensures Contains(OptimizationPrompt(prompt, target, p, featureDescription), t)
  {
    FlattenContains([GuidelineLines(target, p), FeatureContext(featureDescription),
                     "\nCurrent Prompt:\n", prompt, "\n\n", OptimizationGoals], i, t);
  }

  /** The optimisation request carries the target and the whole profile. */
  lemma OptimizationPromptShowsProfile(prompt: string, target: string, p: Profile, featureDescription: Option<string>)
    ensures var q := OptimizationPrompt(prompt, target, p, featureDescription);
      Contains(q, target) && Contains(q, p.preferredFormat) && Contains(q, p.instructionStyle)
      && Contains(q, p.contextHandling) && Contains(q, p.examples) && Contains(q, p.reasoning)
  {
    var g := GuidelineLines(target, p);
    var q := OptimizationPrompt(prompt, target, p, featureDescription);
    GuidelineLinesShow(target, p);
    ContainsSelf(g);
    RequestPieces(prompt, target, p, featureDescription, 0, g);
    ContainsTransitive(q, g, target);
    ContainsTransitive(q, g, p.preferredFormat);
    ContainsTransitive(q, g, p.instructionStyle);
    ContainsTransitive(q, g, p.contextHandling);
    ContainsTransitive(q, g, p.examples);
    ContainsTransitive(q, g, p.reasoning);
  }

  /** The optimisation request carries the whole prompt. */
  lemma OptimizationPromptShowsPrompt(prompt: string, target: string, p: Profile, featureDescription: Option<string>)
    ensures Contains(OptimizationPrompt(prompt, target, p, featureDescription), prompt)
  {
    ContainsSelf(prompt);
    RequestPieces(prompt, target, p, featureDescription, 3, prompt);
  }

  /** The feature description appears in the request when it is non-empty. */
  lemma OptimizationPromptShowsFeature(prompt: string, target: string, p: Profile, featureDescription: Option<string>)
    requires HasText(featureDescription)
    ensures Contains(OptimizationPrompt(prompt, target, p, featureDescription), FeatureHeading + featureDescription.value)
  {
    var fd := FeatureHeading + featureDescription.value;
    ShowsPart("\n", fd, "\n");
    RequestPieces(prompt, target, p, featureDescription, 1, fd);
  }

  /** An empty feature description asks the same as none. */
  lemma EmptyFeatureDescriptionIgnored(prompt: string, target: string, p: Profile, featureDescription: Option<string>)
    requires !HasText(featureDescription)
    ensures OptimizationPrompt(prompt, target, p, featureDescription) == OptimizationPrompt(prompt, target, p, None)
  {
    assert FeatureContext(featureDescription) == FeatureContext(None);
  }

  /** A target outside the table is optimised with the gpt-4-turbo-preview profile. */
  lemma UnknownTargetUsesDefault(prompt: string, target: string, featureDescription: Option<string>)
    requires target !in KnownTargets
    ensures OptimizationPrompt(prompt, target, ProfileFor(target), featureDescription)
         == OptimizationPrompt(prompt, target, ProfileFor(DefaultTarget), featureDescription)
  {
    assert DefaultTarget == KnownTargets[2];
  }
}
