/**
 * The per-session state of the tutor (st.session_state in app.py) and the
 * operations that update it in place: filling in defaults, applying settings
 * from the sidebar, clearing the chat, refreshing the cached system prompt,
 * a click on a suggestion and one chat turn.
 *
 * Each key of the session state is an Option field: None stands for a key that
 * has not been set yet in this session.
 */
module TutorSession {
  import opened Wrappers
  import opened Prompt
  import opened Suggestions
  import opened SettingsStore
  import opened Chat

  /** A key's value after it has been defaulted: kept if present, else the default. */
  function Filled<T>(v: Option<T>, default: T): Option<T> {
    if v.Some? then v else Some(default)
  }

  class Session {
    var messages: Option<seq<Message>>
    var model: Option<string>
    var temperature: Option<real>
    var level: Option<string>
    var focus: Option<string>
    var style: Option<string>
    var socratic: Option<bool>
    var systemPromptCache: Option<string>

    /** The system prompt is never stored in the log. */
    ghost predicate Valid()
      reads this
    {
      messages.Some? ==> NoSystemMessages(messages.value)
    }

    /** All settings keys are present. */
    predicate HasSettings()
      reads this
    {
      model.Some? && temperature.Some? && level.Some? && focus.Some? && style.Some? && socratic.Some?
    }

    /** Every key of the session state is present. */
    predicate Initialized()
      reads this
    {
      messages.Some? && HasSettings() && systemPromptCache.Some?
    }

    function CurrentSettings(): Settings
      reads this
      requires HasSettings()
    {
      Settings(model.value, temperature.value, level.value, focus.value, style.value, socratic.value)
    }

    /** The system prompt for the current settings. */
    function CurrentPrompt(): string
      reads this
      requires level.Some? && focus.Some? && style.Some? && socratic.Some?
    {
      BuildSystemPrompt(level.value, focus.value, style.value, socratic.value)
    }

    /** A new session has no keys set. */
    constructor ()
      ensures Valid()
      ensures messages == None && model == None && temperature == None && level == None
      ensures focus == None && style == None && socratic == None && systemPromptCache == None
    {
      messages, model, temperature, level := None, None, None, None;
      focus, style, socratic, systemPromptCache := None, None, None, None;
    }

    /** Sets every missing key to its default and leaves present keys as they are. */
    method InitSessionState()
      requires Valid()
      modifies this
      ensures Valid() && Initialized()
      ensures messages == Filled(old(messages), [])
      ensures model == Filled(old(model), DefaultModel)
      ensures temperature == Filled(old(temperature), DefaultTemperature)
      ensures level == Filled(old(level), DefaultLevel)
      ensures focus == Filled(old(focus), DefaultFocus)
      ensures style == Filled(old(style), DefaultStyle)
      ensures socratic == Filled(old(socratic), DefaultSocratic)
      ensures systemPromptCache == Filled(old(systemPromptCache), "")
      ensures old(Initialized()) ==> unchanged(this)
    {
      messages := Filled(messages, []);
      model := Filled(model, DefaultModel);
      temperature := Filled(temperature, DefaultTemperature);
      level := Filled(level, DefaultLevel);
      focus := Filled(focus, DefaultFocus);
      style := Filled(style, DefaultStyle);
      socratic := Filled(socratic, DefaultSocratic);
      systemPromptCache := Filled(systemPromptCache, "");
    }

    /**
     * Applies each field of the candidate that differs from the stored one
     * (the temperature only when it moved by more than the tolerance) and
     * reports whether any did.
     */
    method UpdateSettings(
      newModel: string, newTemperature: real, newLevel: string,
      newFocus: string, newStyle: string, newSocratic: bool)
      returns (changed: bool)
      requires Valid() && HasSettings()
      modifies this
      ensures Valid() && HasSettings()
      ensures var cand := Settings(newModel, newTemperature, newLevel, newFocus, newStyle, newSocratic);
              CurrentSettings() == Updated(old(CurrentSettings()), cand)
              && changed == Differs(old(CurrentSettings()), cand)
      ensures messages == old(messages) && systemPromptCache == old(systemPromptCache)
    {
      var cur := CurrentSettings();
      var m, t, l, f, st, so := cur.model, cur.temperature, cur.level, cur.focus, cur.style, cur.socratic;
      changed := false;
      if newModel != m {
        m := newModel;
        changed := true;
      }
      assert changed == (newModel != cur.model);
      if Abs(newTemperature - t) > Eps {
        t := newTemperature;
        changed := true;
      }
      assert changed == (newModel != cur.model || TemperatureMoved(cur.temperature, newTemperature));
      assert Settings(m, t, cur.level, cur.focus, cur.style, cur.socratic)
          == Updated(cur, Settings(newModel, newTemperature, cur.level, cur.focus, cur.style, cur.socratic));
      if newLevel != l {
        l := newLevel;
        changed := true;
      }
      if newFocus != f {
        f := newFocus;
        changed := true;
      }
      if newStyle != st {
        st := newStyle;
        changed := true;
      }
      if newSocratic != so {
        so := newSocratic;
        changed := true;
      }
      model, temperature, level, focus, style, socratic := Some(m), Some(t), Some(l), Some(f), Some(st), Some(so);
    }

    /** Empties the conversation; no setting and not the cached prompt can change. */
    method ClearChat()
      modifies this`messages
      ensures Valid()
      ensures messages == Some([])
      ensures model == old(model) && temperature == old(temperature) && level == old(level)
      ensures focus == old(focus) && style == old(style) && socratic == old(socratic)
      ensures systemPromptCache == old(systemPromptCache)
    {
      messages := Some([]);
    }

    /** Recomputes the system prompt from the current settings and caches it. */
    method EnsureSystemPrompt() returns (prompt: string)
      requires Valid() && level.Some? && focus.Some? && style.Some? && socratic.Some?
      modifies this`systemPromptCache
      ensures Valid()
      ensures prompt == CurrentPrompt() && systemPromptCache == Some(prompt)
    {
      prompt := BuildSystemPrompt(level.value, focus.value, style.value, socratic.value);
      systemPromptCache := Some(prompt);
    }

    /** Appends one user or assistant message to the conversation. */
    method Append(m: Message)
      requires Valid() && messages.Some? && m.role != System
      modifies this`messages
      ensures Valid()
      ensures messages == Some(old(messages.value) + [m])
    {
      messages := Some(messages.value + [m]);
    }

    /** A click on suggestion button `index` appends that suggestion as a user message. */
    method ClickSuggestion(index: nat)
      requires Valid() && messages.Some? && level.Some?
      requires index < |SuggestedPrompts(level.value)|
      modifies this`messages
      ensures Valid()
      ensures messages == Some(old(messages.value) + [Message(User, SuggestedPrompts(level.value)[index])])
    {
      var prompts := SuggestedPrompts(level.value);
      Append(Message(User, prompts[index]));
    }

    /**
     * One chat turn for the text the learner submitted.  The empty input does
     * nothing.  Otherwise the user's message is appended; if the service client
     * can be created, the system prompt is refreshed and the request, that
     * prompt followed by the whole log, is sent; the reply, or the fallback text
     * when the client or the call failed, is appended as the assistant's
     * message.  Returns the request sent and the error shown, if any.
     */
    method SubmitTurn(userInput: string, client: ClientOutcome, service: Request -> Completion)
      returns (sent: Option<Request>, shownError: Option<string>)
      requires Valid() && Initialized()
      modifies this
      ensures Valid() && Initialized()
      ensures HasSettings() && CurrentSettings() == old(CurrentSettings())
      ensures userInput == "" ==> unchanged(this) && sent == None && shownError == None
      ensures userInput != "" ==> (sent.Some? <==> client.Ready?)
      ensures sent.Some? ==>
        sent.value == Request(model.value, ComposeMessages(CurrentPrompt(), old(messages.value) + [Message(User, userInput)]),
                              temperature.value)
        && systemPromptCache == Some(CurrentPrompt())
      ensures sent.None? ==> systemPromptCache == old(systemPromptCache)
      ensures userInput != "" ==>
        var outcome := match client
          case Ready => service(sent.value)
          case Unavailable(e) => Failure(e);
        messages == Some(old(messages.value) + [Message(User, userInput), Message(Assistant, ReplyText(outcome))])
        && shownError == (if outcome.Failure? then Some("API error: " + outcome.error) else None)
    {
      sent, shownError := None, None;
      if userInput != "" {
        ghost var before := messages.value;
        Append(Message(User, userInput));
        var outcome: Completion;
        match client {
          case Ready =>
            var systemPrompt := EnsureSystemPrompt();
            var request := Request(model.value, ComposeMessages(systemPrompt, messages.value), temperature.value);
            sent := Some(request);
            outcome := GenerateAssistantReply(service, model.value, systemPrompt, messages.value, temperature.value);
          case Unavailable(e) =>
            outcome := Failure(e);
        }
        if outcome.Failure? {
          shownError := Some("API error: " + outcome.error);
        }
        Append(Message(Assistant, ReplyText(outcome)));
        assert messages.value == before + [Message(User, userInput), Message(Assistant, ReplyText(outcome))];
      }
    }
  }
}
