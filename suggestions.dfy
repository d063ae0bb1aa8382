/**
 * Starter prompts offered as suggestion buttons (suggested_prompts in app.py).
 * Six general prompts are extended by two prompts chosen by the learner's level,
 * and the list is then cut back to its first six entries, so the level-specific
 * prompts never survive.
 */
module Suggestions {

  const BasePrompts: seq<string> := [
    "Explain list comprehensions with two small examples.",
    "Give me a short exercise on for-loops and range().",
    "What are common pitfalls with mutable default arguments?",
    "Show how to read and write a text file safely.",
    "Explain try/except/else/finally with a minimal example.",
    "How do I use virtual environments and why do they matter?"
  ]

  const BeginnerLevel: string := "Beginner"
  const IntermediateLevel: string := "Intermediate"

  const BeginnerPrompts: seq<string> := [
    "What is the difference between a list and a tuple?",
    "Explain variables and types with simple examples."
  ]
  const IntermediatePrompts: seq<string> := [
    "Demonstrate list vs dict iteration patterns and when to use each.",
    "Show how to write a small unit test using unittest."
  ]
  const AdvancedPrompts: seq<string> := [
    "Explain decorators with a practical example.",
    "Show how to use type hints and mypy to improve code quality."
  ]

  /** The two prompts appended for a level; any level other than the first two gets the advanced pair. */
  function LevelPrompts(level: string): seq<string> {
    if level == BeginnerLevel then BeginnerPrompts
    else if level == IntermediateLevel then IntermediatePrompts
    else AdvancedPrompts
  }

  /** Always exactly the six base prompts, whatever the level. */
  function SuggestedPrompts(level: string): (r: seq<string>)
    ensures |r| == 6
    ensures r == BasePrompts
  {
    (BasePrompts + LevelPrompts(level))[..6]
  }

  /** No level-specific prompt is ever among the suggestions. */
  lemma LevelPromptsUnreachable(level: string)
    ensures forall q :: q in LevelPrompts(level) ==> q !in SuggestedPrompts(level)
  {
  }
}
