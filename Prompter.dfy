/**
 * The prompt builder of the AI service (ai-service/app/services/prompter.py).
 *
 * `Prompter.Build` assembles the message list sent to the language model:
 * the system prompt with the current time filled in, then the conversation
 * history from the context (if any), then the user's message. The system
 * prompt is a template with one `{current_time}` field, filled in with
 * Python's `str.format`; `Format` models that method for templates whose
 * only named field is `current_time`. The clock is a parameter: `now` is the
 * already formatted "%Y-%m-%d %H:%M:%S" text.
 */
module Prompter {
  import opened Base

  /** A chat message in the model's `{"role": ..., "content": ...}` form. */
  datatype ChatMessage = ChatMessage(role: string, content: string)

  /** The `context` argument: a dictionary that may or may not hold a "history" key. */
  datatype Context = Context(history: Option<seq<ChatMessage>>)

  const FIELD: string := "{current_time}"

  predicate NoBraces(s: string) {
    forall i :: 0 <= i < |s| ==> s[i] != '{' && s[i] != '}'
  }

  /**
   * `template.format(current_time=value)`: the field is replaced by `value`,
   * `{{` and `}}` stand for single braces, and any other brace makes
   * `format` raise (None): an unknown field, a positional field, a
   * conversion or format spec, or a lone brace.
   */
  function Format(template: string, value: string): (r: Option<string>)
    decreases |template|
  {
    if template == [] then Some([])
    else if template[0] == '{' then
      if |template| >= 2 && template[1] == '{' then
        var rest := Format(template[2..], value);
        if rest.Some? then Some("{" + rest.value) else None
      else if IsPrefix(FIELD, template) then
        var rest := Format(template[|FIELD|..], value);
        if rest.Some? then Some(value + rest.value) else None
      else None
    else if template[0] == '}' then
      if |template| >= 2 && template[1] == '}' then
        var rest := Format(template[2..], value);
        if rest.Some? then Some("}" + rest.value) else None
      else None
    else
      var rest := Format(template[1..], value);
      if rest.Some? then Some([template[0]] + rest.value) else None
  }

  /** Text without braces is copied unchanged by `format`. */
  lemma {:induction false} FormatNoBraces(s: string, value: string)
    requires NoBraces(s)
    ensures Format(s, value) == Some(s)
  {
    if s != [] {
      assert NoBraces(s[1..]) by {
        forall i | 0 <= i < |s[1..]| ensures s[1..][i] != '{' && s[1..][i] != '}' {
          assert s[1..][i] == s[i + 1];
        }
      }
      FormatNoBraces(s[1..], value);
      assert s[0] != '{' && s[0] != '}';
      assert [s[0]] + s[1..] == s;
    }
  }

  /** A brace-free prefix is copied unchanged and the rest is formatted on its own. */
  lemma {:induction false} FormatPrefix(a: string, b: string, value: string)
    requires NoBraces(a)
    ensures Format(a + b, value) == if Format(b, value).Some? then Some(a + Format(b, value).value) else None
  {
    if a != [] {
      var s := a + b;
      assert s[0] == a[0];
      assert s[1..] == a[1..] + b;
      assert NoBraces(a[1..]) by {
        forall i | 0 <= i < |a[1..]| ensures a[1..][i] != '{' && a[1..][i] != '}' {
          assert a[1..][i] == a[i + 1];
        }
      }
      FormatPrefix(a[1..], b, value);
      if Format(b, value).Some? {
        assert [a[0]] + (a[1..] + Format(b, value).value) == a + Format(b, value).value;
      }
    } else {
      assert a + b == b;
      if Format(b, value).Some? {
        assert a + Format(b, value).value == Format(b, value).value;
      }
    }
  }

  /**
   * A template made of brace-free text around one `{current_time}` field
   * (the shape of the service's system prompt) formats to that text with
   * the value in the field's place, and nothing else changed.
   */
  lemma {:induction false} FormatOneField(head: string, tail: string, value: string)
    requires NoBraces(head) && NoBraces(tail)
    ensures Format(head + FIELD + tail, value) == Some(head + value + tail)
  {
    var rest := FIELD + tail;
    assert head + FIELD + tail == head + rest;
    assert rest[..|FIELD|] == FIELD;
    assert rest[0] == '{' && rest[1] == 'c';
    assert rest[|FIELD|..] == tail;
    FormatNoBraces(tail, value);
    assert Format(rest, value) == Some(value + tail);
    FormatPrefix(head, rest, value);
    assert head + (value + tail) == head + value + tail;
  }

  /**
   * After brace-free text, a `{` that neither doubles nor opens
   * `{current_time}`, or a `}` that does not double, makes `format` raise.
   */
  lemma {:induction false} FormatRaises(head: string, rest: string, value: string)
    requires NoBraces(head) && rest != []
    requires || (rest[0] == '{' && !(|rest| >= 2 && rest[1] == '{') && !IsPrefix(FIELD, rest))
             || (rest[0] == '}' && !(|rest| >= 2 && rest[1] == '}'))
    ensures Format(head + rest, value) == None
  {
    FormatPrefix(head, rest, value);
  }

  /** The history `build` copies: present only when the context exists and has a "history" key. */
  function HistoryOf(context: Option<Context>): seq<ChatMessage> {
    if context.Some? && context.value.history.Some? then context.value.history.value else []
  }

  class Prompter {
    /** The system prompt template (the persona text with a `{current_time}` field). */
    const systemPrompt: string

    constructor(systemPrompt: string)
      ensures this.systemPrompt == systemPrompt
    {
      this.systemPrompt := systemPrompt;
    }

    /** The first message of every list `build` returns; None where `format` raises. */
    function SystemMessage(now: string): Option<ChatMessage> {
      var formatted := Format(systemPrompt, now);
      if formatted.Some? then Some(ChatMessage("system", formatted.value)) else None
    }

    /**
     * `build(message, context)`: the system message first, then the
     * history unchanged and in order (when the context has one), then the
     * user's message last. None where formatting the template raises.
     */
    method Build(message: string, context: Option<Context>, now: string) returns (messages: Option<seq<ChatMessage>>)
      ensures messages.Some? <==> Format(systemPrompt, now).Some?
      ensures messages.Some? ==>
        var m := messages.value;
        var h := HistoryOf(context);
        && |m| == 2 + |h|
        && m[0] == ChatMessage("system", Format(systemPrompt, now).value)
        && m[1..|m| - 1] == h
        && m[|m| - 1] == ChatMessage("user", message)
    {
      var formatted := Format(systemPrompt, now);
      if formatted.None? {
        return None;
      }
      var m := [ChatMessage("system", formatted.value)];
      if context.Some? && context.value.history.Some? {
        m := m + context.value.history.value;
      }
      m := m + [ChatMessage("user", message)];
      assert m[1..|m| - 1] == HistoryOf(context);
      messages := Some(m);
    }
  }
}
