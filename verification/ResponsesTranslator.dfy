/** ResponsesStreamTranslator as the object it is: fields updated call by call, events emitted as it goes. */
module ResponsesTranslators {
  import opened Chunks
  import opened Options
  import opened Normalizer
  import opened ResponsesStream

  class ResponsesStreamTranslator {
    var started: bool
    var finished: bool
    var model: string
    var outputIndex: nat
    var contentIndex: nat
    var hasText: bool
    var textAccum: string
    var reasoningAccum: string
    var toolCalls: seq<Call>
    var inReasoning: bool
    var lastUsage: Option<Usage>
    var trace: seq<ResponseEvent>
    const setup: Setup
    const normalizer: StreamNormalizer

    ghost predicate Valid()
      reads this, normalizer
    {
      normalizer.Valid()
    }

    ghost function CoreNow(): Core
      reads this
    {
      Core(started, finished, model, outputIndex, contentIndex, hasText, textAccum, reasoningAccum, toolCalls,
           inReasoning, trace)
    }

    ghost function Current(): Translator
      reads this, normalizer
    {
      Translator(CoreNow(), normalizer.Current(), lastUsage)
    }

    constructor (setup: Setup)
      ensures Valid() && Current() == INITIAL && this.setup == setup && fresh(normalizer)
    {
      this.setup := setup;
      normalizer := new StreamNormalizer();
      started, finished, model, outputIndex, contentIndex := false, false, "", 0, 0;
      hasText, textAccum, reasoningAccum, toolCalls, inReasoning := false, "", "", [], false;
      lastUsage := None;
      trace := [];
    }

    method Emit(e: ResponseEvent)
      modifies this`trace
      ensures trace == old(trace) + [e]
    {
      trace := trace + [e];
    }

    method EndReasoning()
      modifies this
      ensures CoreNow() == CloseReasoning(old(CoreNow())) && lastUsage == old(lastUsage)
    {
      if inReasoning {
        inReasoning := false;
        Emit(ReasoningDone(outputIndex, contentIndex));
        contentIndex := contentIndex + 1;
      }
    }

    method HandleNormalizedContent(content: string)
      modifies this
      ensures CoreNow() == if content == "" then old(CoreNow()) else HandleTextCore(old(CoreNow()), content)
      ensures lastUsage == old(lastUsage)
    {
      if content == "" {
        return;
      }
      EndReasoning();
      HandleText(content);
    }

    method AddMessageItem()
      modifies this`trace
      ensures CoreNow() == AddMessage(old(CoreNow()))
    {
      Emit(ItemAdded(outputIndex, Message("")));
      Emit(PartAdded(outputIndex, contentIndex));
    }

    method HandleText(text: string)
      modifies this
      ensures CoreNow() == HandleTextCore(old(CoreNow()), text)
      ensures lastUsage == old(lastUsage)
    {
      EndReasoning();
      if !hasText {
        hasText := true;
        AddMessageItem();
      }
      textAccum := textAccum + text;
      Emit(TextDelta(outputIndex, contentIndex, text));
    }

    method HandleNormalizedReasoning(reasoning: string)
      modifies this
      ensures CoreNow() == if reasoning == "" then old(CoreNow()) else HandleReasoningCore(old(CoreNow()), reasoning)
      ensures lastUsage == old(lastUsage)
    {
      if reasoning == "" {
        return;
      }
      HandleReasoning(reasoning);
    }

    method HandleReasoning(reasoning: string)
      modifies this
      ensures CoreNow() == HandleReasoningCore(old(CoreNow()), reasoning)
      ensures lastUsage == old(lastUsage)
    {
      if !inReasoning {
        inReasoning := true;
        AddMessageItem();
      }
      reasoningAccum := reasoningAccum + reasoning;
      Emit(ReasoningDelta(outputIndex, contentIndex, reasoning));
    }

    function OutputIndexOffset(): nat
      reads this
    {
      if hasText then 1 else 0
    }

    method HandleToolCalls(fragments: seq<ToolFragment>)
      modifies this
      ensures CoreNow() == ActAll(setup, old(CoreNow()).(inReasoning := false), FragmentsActions(fragments))
      ensures lastUsage == old(lastUsage)
    {
      hide Act, ActAll, FragmentActions;
      if inReasoning {
        inReasoning := false;
      }
      var i := 0;
      assert fragments[0..] == fragments;
      ghost var c0 := CoreNow();
      while i < |fragments|
        invariant 0 <= i <= |fragments| && lastUsage == old(lastUsage)
        invariant ActAll(setup, CoreNow(), FragmentsActions(fragments[i..])) ==
          ActAll(setup, c0, FragmentsActions(fragments))
      {
        assert fragments[i..][1..] == fragments[i + 1..];
        ActAppend(setup, CoreNow(), FragmentActions(fragments[i]), FragmentsActions(fragments[i + 1..]));
        HandleFragment(fragments[i]);
        i := i + 1;
      }
      ActOne(setup, CoreNow());
    }

    method HandleFragment(f: ToolFragment)
      modifies this
      ensures CoreNow() == ActAll(setup, old(CoreNow()), FragmentActions(f))
      ensures lastUsage == old(lastUsage)
    {
      hide ActAll, StartTool, ToolArguments;
      ghost var c := CoreNow();
      ActAppend(setup, c, if f.id != "" then [ToolStart(f.id, f.name)] else [],
                if f.arguments != "" then [ToolArgs(f.arguments)] else []);
      ActOne(setup, c);
      if f.id != "" {
        StartToolCall(f.id, f.name);
      }
      ActOne(setup, CoreNow());
      if f.arguments != "" {
        AddArguments(f.arguments);
      }
    }

    method StartToolCall(id: string, name: string)
      modifies this
      ensures CoreNow() == StartTool(setup, old(CoreNow()), id, name) && lastUsage == old(lastUsage)
    {
      var isCustom := name in setup.customTools;
      toolCalls := toolCalls + [Call(id, name, "", 0, isCustom)];
      var idx := |toolCalls| - 1;
      if isCustom {
        Emit(ItemAdded(idx + OutputIndexOffset(), CustomCall(id, name, "")));
      } else {
        Emit(ItemAdded(idx + OutputIndexOffset(), FunctionCall(id, name, "")));
      }
    }

    method AddArguments(arguments: string)
      modifies this
      ensures CoreNow() == ToolArguments(setup, old(CoreNow()), arguments) && lastUsage == old(lastUsage)
    {
      if |toolCalls| > 0 {
        var idx := |toolCalls| - 1;
        var call := toolCalls[idx].(arguments := toolCalls[idx].arguments + arguments);
        toolCalls := toolCalls[idx := call];
        if call.custom {
          var input := setup.extract(call.arguments);
          if |input| > call.inputEmitted {
            var delta := input[call.inputEmitted..];
            toolCalls := toolCalls[idx := call.(inputEmitted := |input|)];
            Emit(InputDelta(idx + OutputIndexOffset(), call.ItemId(setup.responseId), delta));
          }
        } else {
          Emit(ArgumentsDelta(idx + OutputIndexOffset(), call.ItemId(setup.responseId), arguments));
        }
      }
    }

    method Finish(usage: Option<Usage>)
      modifies this
      ensures CoreNow() == FinishCore(setup, old(CoreNow()), usage) && lastUsage == old(lastUsage)
    {
      hide CloseCalls, FinalItems, CloseText;
      ghost var c := CoreNow();
      EndText();
      if inReasoning {
        Emit(ReasoningDone(outputIndex, contentIndex));
        inReasoning := false;
      }
      ghost var c1 := CoreNow();
      assert c1 == StopReasoning(CloseText(c)) by { TextKeeps(c); }
      TextKeeps(c);
      CloseToolCalls();
      var output := FinalOutput();
      Emit(Completed(model, output, usage));
      finished := true;
    }

    method EndText()
      modifies this
      ensures CoreNow() == CloseText(old(CoreNow())) && lastUsage == old(lastUsage)
    {
      if hasText {
        Emit(TextDone(outputIndex, contentIndex, textAccum));
        Emit(PartDone(outputIndex, contentIndex, textAccum));
        Emit(ItemDone(outputIndex, Message(textAccum)));
        outputIndex := outputIndex + 1;
      }
    }

    static lemma TextKeeps(c: Core)
      ensures var d := StopReasoning(CloseText(c));
        d.calls == c.calls && d.hasText == c.hasText && d.textAccum == c.textAccum && d.model == c.model
    {
    }

    method CloseToolCalls()
      modifies this`trace
      ensures trace == old(trace) + CloseCalls(setup, toolCalls, OutputIndexOffset())
    {
      hide CloseCall;
      var i := 0;
      while i < |toolCalls|
        invariant 0 <= i <= |toolCalls|
        invariant trace == old(trace) + CloseCalls(setup, toolCalls[..i], OutputIndexOffset())
      {
        assert toolCalls[..i + 1][..i] == toolCalls[..i];
        ghost var (front, closed) :=
          (CloseCalls(setup, toolCalls[..i], OutputIndexOffset()),
           CloseCall(setup, toolCalls[i], i + OutputIndexOffset()));
        assert old(trace) + front + closed == old(trace) + (front + closed);
        CloseToolCall(toolCalls[i], i + OutputIndexOffset());
        i := i + 1;
      }
      assert toolCalls[..i] == toolCalls;
    }

    method CloseToolCall(tc: Call, idx: nat)
      modifies this`trace
      ensures trace == old(trace) + CloseCall(setup, tc, idx)
    {
      var itemId := tc.ItemId(setup.responseId);
      if tc.custom {
        var input := setup.extract(tc.arguments);
        if |input| > tc.inputEmitted {
          var delta := input[tc.inputEmitted..];
          Emit(InputDelta(idx, itemId, delta));
        }
        Emit(InputDone(idx, itemId, input));
        Emit(ItemDone(idx, CustomCall(tc.id, tc.name, input)));
        return;
      }
      Emit(ArgumentsDone(idx, itemId, tc.arguments));
      Emit(ItemDone(idx, FunctionCall(tc.id, tc.name, tc.arguments)));
    }

    method FinalOutput() returns (output: seq<Item>)
      ensures output == (if hasText then [Message(textAccum)] else []) + FinalItems(setup, toolCalls)
    {
      output := [];
      if hasText {
        output := output + [Message(textAccum)];
      }
      ghost var front := output;
      var i := 0;
      while i < |toolCalls|
        invariant 0 <= i <= |toolCalls| && output == front + FinalItems(setup, toolCalls[..i])
      {
        assert toolCalls[..i + 1][..i] == toolCalls[..i];
        var tc := toolCalls[i];
        if tc.custom {
          output := output + [CustomCall(tc.id, tc.name, setup.extract(tc.arguments))];
        } else {
          output := output + [FunctionCall(tc.id, tc.name, tc.arguments)];
        }
        i := i + 1;
      }
      assert toolCalls[..i] == toolCalls;
    }

    method DeliverAll(out: seq<Emission>)
      modifies this
      ensures CoreNow() == ActAll(setup, old(CoreNow()), SpeechActions(out)) && lastUsage == old(lastUsage)
    {
      hide ActAll, HandleTextCore, HandleReasoningCore;
      var i := 0;
      assert out[0..] == out;
      while i < |out|
        invariant 0 <= i <= |out| && lastUsage == old(lastUsage)
        invariant ActAll(setup, CoreNow(), SpeechActions(out[i..])) == ActAll(setup, old(CoreNow()), SpeechActions(out))
      {
        assert out[i..][1..] == out[i + 1..];
        ActAppend(setup, CoreNow(), EmissionActions(out[i]), SpeechActions(out[i + 1..]));
        ActOne(setup, CoreNow());
        match out[i] {
          case Content(text) => HandleNormalizedContent(text);
          case Reasoning(text) => HandleNormalizedReasoning(text);
        }
        i := i + 1;
      }
      ActOne(setup, CoreNow());
    }

    method Begin(name: string)
      modifies this
      ensures CoreNow() == Act(setup, old(CoreNow()), Start(name)) && lastUsage == old(lastUsage)
    {
      if !started {
        started := true;
        model := name;
        Emit(Created(name));
      }
    }

    method ProcessChunk(chunk: StreamChunk)
      requires Valid()
      modifies this, normalizer
      ensures Valid() && Current() == Process(setup, old(Current()), chunk)
    {
      hide ActAll, SpeechActions, FragmentsActions, Deliver, Keepalive, FinishCore;
      if Keepalive(chunk) {
        return;
      }
      if chunk.choices == [] {
        if chunk.usage != None {
          lastUsage := chunk.usage;
        }
        return;
      }
      var ch := chunk.choices[0];
      ghost var c0 := CoreNow();
      Begin(chunk.model);
      ActOne(setup, c0);
      var out := normalizer.ProcessChunk(ch.content, ch.reasoning);
      DeliverAll(out);
      ghost var c1 := CoreNow();
      ActOne(setup, c1);
      ActAppend(setup, c1, [ToolBegin], FragmentsActions(ch.toolCalls));
      if |ch.toolCalls| > 0 {
        HandleToolCalls(ch.toolCalls);
      }
      assert CoreNow() == ActAll(setup, c1, ToolActions(ch.toolCalls));
      ActOne(setup, CoreNow());
      if ch.finishReason != None && !finished {
        Finish(chunk.usage);
      }
      ghost var (first, speech, tools) := ([Start(chunk.model)], SpeechActions(out), ToolActions(ch.toolCalls));
      ghost var last: seq<Action> := if ch.finishReason != None then [Action.Finish(chunk.usage)] else [];
      ActAppend(setup, c0, first, speech);
      ActAppend(setup, c0, first + speech, tools);
      ActAppend(setup, c0, first + speech + tools, last);
    }

    method Flush()
      requires Valid()
      modifies this, normalizer
      ensures Valid() && Current() == Flushed(setup, old(Current()))
    {
      hide ActAll, SpeechActions, FinishCore;
      ghost var c0 := CoreNow();
      var out := normalizer.Flush();
      DeliverAll(out);
      ActSnoc(setup, c0, SpeechActions(out), Action.Finish(lastUsage));
      if !finished {
        Finish(lastUsage);
      }
    }
  }
}
