/**
 * The tutor's system prompt (build_system_prompt in app.py): a fixed template
 * into which the teaching level, focus area, teaching style and one of two tone
 * lines are written.  The module also holds a reader for that template; the
 * round-trip lemma between the two is what shows that the three settings are
 * placed verbatim, in order, after their labels.
 */
module Prompt {
  import opened Wrappers

  const SocraticTone: string := "Socratic and probing while supportive"
  const DirectTone: string := "clear and direct with gentle guidance"

  const RoleLine: string := "You are a patient, expert Python tutor.\n"
  const LevelLabel: string := "- Teaching level: "
  const FocusLabel: string := "- Focus area: "
  const StyleLabel: string := "- Teaching style: "
  const ToneLabel: string := "- Tone: "

  /** Everything after the tone text: the blank line, the six goals and the formatting block. */
  const Guidance: string :=
    "\n\n"
    + "Goals:\n"
    + "1) Explain concepts step-by-step using simple language.\n"
    + "2) Provide concise code examples using modern Python 3.12 when helpful.\n"
    + "3) Encourage good practices (readability, PEP 8, clear naming, basic testing).\n"
    + "4) Offer small exercises. Before revealing solutions, invite the learner to try first.\n"
    + "5) When asked to review code, explain what it does, identify issues, and suggest improvements.\n"
    + "6) Prefer standard library unless user requests external packages.\n\n"
    + "Formatting:\n"
    + "- Keep responses concise. Use bullet points and short code blocks where useful.\n"
    + "- Provide example outputs when helpful.\n"
    + "- Ask one clarifying or reflective question when appropriate to check understanding."

  function Tone(socratic: bool): string {
    if socratic then SocraticTone else DirectTone
  }

  function BuildSystemPrompt(level: string, focus: string, style: string, socratic: bool): string {
    var tone := Tone(socratic);
    RoleLine
    + LevelLabel + level + "\n"
    + FocusLabel + focus + "\n"
    + StyleLabel + style + "\n"
    + ToneLabel + tone + Guidance
  }

  /** The part of the prompt before the tone text; it does not depend on the socratic flag. */
  function Head(level: string, focus: string, style: string): string {
    RoleLine + LevelLabel + level + "\n" + FocusLabel + focus + "\n" + StyleLabel + style + "\n" + ToneLabel
  }

  /** The prompt is Head + tone + a constant tail: only the tone depends on `socratic`. */
  lemma PromptLayout(level: string, focus: string, style: string, socratic: bool)
    ensures BuildSystemPrompt(level, focus, style, socratic)
         == Head(level, focus, style) + Tone(socratic) + Guidance
  {
  }

  /** Flipping only the socratic flag changes the prompt. */
  lemma SocraticChangesPrompt(level: string, focus: string, style: string)
    ensures BuildSystemPrompt(level, focus, style, true) != BuildSystemPrompt(level, focus, style, false)
  {
    var h := Head(level, focus, style);
    PromptLayout(level, focus, style, true);
    PromptLayout(level, focus, style, false);
    assert BuildSystemPrompt(level, focus, style, true)[|h|] == 'S';
    assert BuildSystemPrompt(level, focus, style, false)[|h|] == 'c';
  }

  // ---------------------------------------------------------------------------
  // Reading a prompt back

  datatype Fields = Fields(level: string, focus: string, style: string, socratic: bool)

  /** The rest of `s` after `prefix`, if `s` starts with it. */
  function StripPrefix(prefix: string, s: string): (r: Option<string>)
    ensures r.Some? <==> prefix <= s
    ensures r.Some? ==> s == prefix + r.value
  {
    if prefix <= s then Some(s[|prefix|..]) else None
  }

  /** The part of `s` before `suffix`, if `s` ends with it. */
  function StripSuffix(s: string, suffix: string): (r: Option<string>)
    ensures r.Some? <==> |suffix| <= |s| && s[|s| - |suffix|..] == suffix
    ensures r.Some? ==> s == r.value + suffix
  {
    if |suffix| <= |s| && s[|s| - |suffix|..] == suffix then Some(s[..|s| - |suffix|]) else None
  }

  /** Splits `s` at its first newline: the line before it and what follows it. */
  function TakeLine(s: string): (r: (string, string))
    ensures '\n' !in r.0
    ensures ('\n' in s && s == r.0 + "\n" + r.1) || ('\n' !in s && r == (s, ""))
  {
    if s == [] then ("", "")
    else if s[0] == '\n' then ("", s[1..])
    else
      var (line, rest) := TakeLine(s[1..]);
      assert s == [s[0]] + s[1..];
      ([s[0]] + line, rest)
  }

  /** Reads one tagged line "tag value\n": the value and the text after the line. */
  function ReadField(tag: string, s: string): Option<(string, string)> {
    var after :- StripPrefix(tag, s);
    var (value, rest) := TakeLine(after);
    Some((value, rest))
  }

  function ToneFlag(tone: string): Option<bool> {
    if tone == SocraticTone then Some(true)
    else if tone == DirectTone then Some(false)
    else None
  }

  /** Reads the tone text, which must be followed by exactly the fixed guidance text. */
  function ReadTone(s: string): Option<bool> {
    var tone :- StripSuffix(s, Guidance);
    ToneFlag(tone)
  }

  /** Reads level, focus, style and the socratic flag back out of a system prompt. */
  function ParsePrompt(p: string): Option<Fields> {
    var r0 :- StripPrefix(RoleLine, p);
    var levelRest :- ReadField(LevelLabel, r0);
    var focusRest :- ReadField(FocusLabel, levelRest.1);
    var styleRest :- ReadField(StyleLabel, focusRest.1);
    var r4 :- StripPrefix(ToneLabel, styleRest.1);
    var socratic :- ReadTone(r4);
    Some(Fields(levelRest.0, focusRest.0, styleRest.0, socratic))
  }

  /** A line without a newline, followed by a newline, is read back exactly. */
  lemma {:induction false} TakeLineOf(line: string, rest: string)
    requires '\n' !in line
    ensures TakeLine(line + "\n" + rest) == (line, rest)
    decreases |line|
  {
    var s := line + "\n" + rest;
    if line == [] {
      assert s == "\n" + rest;
    } else {
      assert line[0] in line;
      assert s[0] == line[0] && s[1..] == line[1..] + "\n" + rest;
      TakeLineOf(line[1..], rest);
      assert [line[0]] + line[1..] == line;
    }
  }

  lemma StripPrefixOf(prefix: string, t: string)
    ensures StripPrefix(prefix, prefix + t) == Some(t)
  {
    assert (prefix + t)[|prefix|..] == t;
  }

  lemma ReadFieldOf(tag: string, value: string, rest: string)
    requires '\n' !in value
    ensures ReadField(tag, tag + (value + "\n" + rest)) == Some((value, rest))
  {
    StripPrefixOf(tag, value + "\n" + rest);
    TakeLineOf(value, rest);
  }

  /** The prompt regrouped as nested "tag value newline" fields (concatenation is associative). */
  lemma PromptNesting(level: string, focus: string, style: string, socratic: bool)
    ensures BuildSystemPrompt(level, focus, style, socratic)
         == RoleLine + (LevelLabel + (level + "\n" + (FocusLabel + (focus + "\n" + (StyleLabel + (style + "\n"
            + (ToneLabel + (Tone(socratic) + Guidance))))))))
  {
    Regroup(RoleLine, LevelLabel, level, FocusLabel, focus, StyleLabel, style, ToneLabel, Tone(socratic), Guidance);
  }

  lemma Regroup(r: string, a: string, x: string, b: string, y: string, c: string, z: string, d: string, t: string, g: string)
    ensures r + a + x + "\n" + b + y + "\n" + c + z + "\n" + d + t + g
         == r + (a + (x + "\n" + (b + (y + "\n" + (c + (z + "\n" + (d + (t + g))))))))
  {
  }

  lemma StripSuffixOf(t: string, suffix: string)
    ensures StripSuffix(t + suffix, suffix) == Some(t)
  {
    assert (t + suffix)[|t|..] == suffix;
  }

  lemma ReadToneOf(socratic: bool)
    ensures ReadTone(Tone(socratic) + Guidance) == Some(socratic)
  {
    StripSuffixOf(Tone(socratic), Guidance);
    assert SocraticTone[0] != DirectTone[0];
  }

  /** The labelled header is read field by field, whatever follows the tone label. */
  lemma ParseHeader(level: string, focus: string, style: string, rest: string)
    requires '\n' !in level && '\n' !in focus && '\n' !in style
    ensures ParsePrompt(RoleLine + (LevelLabel + (level + "\n" + (FocusLabel + (focus + "\n" + (StyleLabel + (style + "\n"
              + (ToneLabel + rest))))))))
         == (match ReadTone(rest)
             case Some(socratic) => Some(Fields(level, focus, style, socratic))
             case None => None)
  {
    var r3 := ToneLabel + rest;
    var r2 := StyleLabel + (style + "\n" + r3);
    var r1 := FocusLabel + (focus + "\n" + r2);
    var r0 := LevelLabel + (level + "\n" + r1);
    StripPrefixOf(RoleLine, r0);
    ReadFieldOf(LevelLabel, level, r1);
    ReadFieldOf(FocusLabel, focus, r2);
    ReadFieldOf(StyleLabel, style, r3);
    StripPrefixOf(ToneLabel, rest);
  }

  /**
   * Round trip: the prompt built from newline-free settings reads back as exactly
   * those settings, so level, focus and style stand verbatim, in that order,
   * after their labels, and the tone line determines the socratic flag.
   */
  lemma ParseBuildRoundTrip(level: string, focus: string, style: string, socratic: bool)
    requires '\n' !in level && '\n' !in focus && '\n' !in style
    ensures ParsePrompt(BuildSystemPrompt(level, focus, style, socratic)) == Some(Fields(level, focus, style, socratic))
  {
    PromptNesting(level, focus, style, socratic);
    ParseHeader(level, focus, style, Tone(socratic) + Guidance);
    ReadToneOf(socratic);
  }

  /** Newline-free settings are determined by the prompt built from them. */
  lemma BuildInjective(a: Fields, b: Fields)
    requires '\n' !in a.level && '\n' !in a.focus && '\n' !in a.style
    requires '\n' !in b.level && '\n' !in b.focus && '\n' !in b.style
    requires BuildSystemPrompt(a.level, a.focus, a.style, a.socratic) == BuildSystemPrompt(b.level, b.focus, b.style, b.socratic)
    ensures a == b
  {
    ParseBuildRoundTrip(a.level, a.focus, a.style, a.socratic);
    ParseBuildRoundTrip(b.level, b.focus, b.style, b.socratic);
  }
}
