# Voice assistant: turn-context metadata, round summary and interruption marker

This project models the pure logic of the voice-assistant example of a
real-time conversational agent. A spoken request such as "turn on the
bedroom lights" makes the language model call the `toggle_light` tool. The
tool records the room in the metadata of the current tool-calling round,
under `"enabled_rooms"` or `"disabled_rooms"`. When the round's calls are
done, a handler reads both lists. If either is non-empty, it builds a prompt
asking the model to summarise what was done. A second handler reacts to the
user barging in: it appends `"... (user interrupted you)"` to the text of
the message that was being spoken.

The modules are:

- `Rooms` (`rooms.dfy`): the `Room` enumeration, its value strings, and the
  lookup by value.
- `TurnContext` (`turn_context.dfy`): the round's metadata as an explicit
  `map<string, seq<Room>>` that is passed in and returned. It holds the two
  tools, `toggle_light` and `stop_speaking`, and runs a whole sequence of
  tool calls.
- `Summary` (`summary.dfy`): the round-complete trigger, the summary-prompt
  builder, and a parser that reads a prompt back.
- `Interruption` (`interruption.dfy`): the interruption marker and its
  removal.
- `Strings` (`strings.dfy`) and `Wrappers` (`wrappers.dfy`): joining and
  splitting strings, plus `Option` and `Result`.

Each operation is paired with an inverse or a reference definition, and a
lemma over all inputs relates the two:

- `toggle_light`: the reference lists `RoomsWith(calls, status)`.
- `stop_speaking`: the same round with those calls removed.
- Summary prompt: `ParseSummary`, which gives a round trip.
- Interruption marker: `StripMarker`, which gives a round trip.
- Room values: `FromValue`.

## Model

| member | source | states |
|---|---|---|
| Rooms.Value | examples/voice-assistant/assistant_calls.py:19-23 | Each member's value is the string listed for it: "bedroom", "living room", "kitchen", "bathroom", "office". Every value is non-empty and holds no comma and no line break, which is what lets joined names be read back. |
| Rooms.FromValue | examples/voice-assistant/assistant_calls.py:18-23 | Looking a string up as a room finds the member whose value it is. It yields nothing when no member carries that value. |
| Rooms.ValueRoundTrip | examples/voice-assistant/assistant_calls.py:18-23 | Every member is found again from its own value string. |
| Rooms.ValueInjective | examples/voice-assistant/assistant_calls.py:18-23 | The five members carry five distinct value strings. |
| TurnContext.KeyFor | examples/voice-assistant/assistant_calls.py:35 | `toggle_light` writes `"enabled_rooms"` exactly when status is true and `"disabled_rooms"` exactly when it is false. |
| TurnContext.ToggleLight | examples/voice-assistant/assistant_calls.py:34-38 | The room goes at the end of the list under `"enabled_rooms"` when status is true, or under `"disabled_rooms"` when false. If that key was absent, the list becomes exactly `[room]`. Every other key, including the other status's key, keeps its value, and no key but the chosen one is added. |
| TurnContext.StopSpeaking | examples/voice-assistant/assistant_calls.py:40-42 | The `stop_speaking` tool leaves the context exactly as it was. |
| TurnContext.RunAppends | examples/voice-assistant/assistant_calls.py:35-38 | After any sequence of tool calls, each status's list is its old list followed by the rooms of that status's `toggle_light` calls, in call order. That key exists afterwards if and only if it existed before or such a call ran. No other key changes or appears. |
| TurnContext.RoundFromEmpty | examples/voice-assistant/assistant_calls.py:35-38 | For a round started from an empty context, `"enabled_rooms"` equals the rooms switched on and `"disabled_rooms"` the rooms switched off, both in call order. The two lengths add up to the number of `toggle_light` calls, so no write is lost. Only those two keys can appear, each exactly when its list is non-empty. |
| TurnContext.StopSpeakingIsNoOp | examples/voice-assistant/assistant_calls.py:40-42 | Running a round gives the same context as running it with every `stop_speaking` call removed, wherever those calls fall. |
| Summary.ScheduledIffToggleCalled | examples/voice-assistant/assistant_calls.py:83 | After a round started from an empty context, `SummaryScheduled`, the handler's test `enabled_rooms or disabled_rooms`, holds exactly when some call of the round was a `toggle_light` call. |
| Summary.FunctionCallsDone | examples/voice-assistant/assistant_calls.py:61-84 | The round-complete handler reads both lists, treating an absent key as an empty list. It yields a summary prompt if and only if at least one list is non-empty. That prompt reads back as exactly those two lists. |
| Summary.RoundSummary | examples/voice-assistant/assistant_calls.py:83-84 | For a whole round from an empty context, a summary is scheduled if and only if some `toggle_light` call ran. The summary reports the rooms switched on and off, in call order. |
| Summary.SummaryPrompt | examples/voice-assistant/assistant_calls.py:67-74 | The prompt always begins with "Make a summary of the following actions you did:". It equals that header exactly when neither list has rooms. |
| Summary.EnabledLineIff | examples/voice-assistant/assistant_calls.py:68-70 | The prompt has a line starting " - You enabled the lights in the following rooms: " if and only if rooms were enabled. That line is the lead followed by the enabled rooms' names joined with ", ". |
| Summary.DisabledLineIff | examples/voice-assistant/assistant_calls.py:72-74 | The prompt has a line starting " - You disabled the lights in the following rooms " (no colon) if and only if rooms were disabled. That line is the lead followed by the disabled rooms' names joined with ", ". |
| Summary.HeaderThenEnabledThenDisabled | examples/voice-assistant/assistant_calls.py:67-74 | The first line of the prompt is the header, and an enabled line always comes before a disabled line. |
| Summary.ParseJoinRooms | examples/voice-assistant/assistant_calls.py:69 | A non-empty room list joined with ", " reads back as the same list. |
| Summary.SummaryRoundTrip | examples/voice-assistant/assistant_calls.py:67-74 | The prompt loses nothing: parsing it recovers both room lists exactly, in order. |
| Summary.CheckedJoin | examples/voice-assistant/assistant_calls.py:69 | `sep.join(items)` succeeds if and only if every item is a string. It then equals the items joined with the separator. Otherwise it reports the first item that is not a string. |
| Summary.HandleAnswerAsWritten | examples/voice-assistant/assistant_calls.py:66-74 | The prompt construction as written, with the `Room` members themselves handed to `", ".join`. It succeeds if and only if both lists are empty, and then yields only the header. |
| Summary.AsWrittenSummaryFails | examples/voice-assistant/assistant_calls.py:67-74 | As written, with `Room` members handed to `", ".join`, every scheduled summary fails on item 0. |
| Summary.HandleAnswer | examples/voice-assistant/assistant_calls.py:66-74 | With the members' value strings joined instead, building the prompt never fails. The result is the summary prompt, which reads back as both lists. |
| Interruption.MarkInterrupted | examples/voice-assistant/assistant_calls.py:56-58 | The interrupted message keeps its role. Its old text is a prefix of its new text, which is longer by exactly the marker's length and ends with "... (user interrupted you)". |
| Interruption.StripMarker | examples/voice-assistant/assistant_calls.py:58 | A text carries the marker if and only if it ends with it. Removing the marker gives the text it was appended to. |
| Interruption.MarkStripRoundTrip | examples/voice-assistant/assistant_calls.py:58 | Removing the marker from an interrupted message gives back exactly the text the message had before. |

## Left out

- The `entrypoint` wiring is left out. It builds the assistant from voice-activity detection, speech-to-text, language-model and text-to-speech providers, which are foreign library calls whose source is not part of this model.
- The listen/think/speak state machine and interruption detection are left out. They live in the assistant library, which is not part of this model. Only the two event handlers' bodies are modelled.
- Scheduling and output are left out: `asyncio.ensure_future`, `await gpt.chat(...)`, `assistant.say(...)` and `asyncio.sleep`. They are asynchronous I/O. `FunctionCallsDone` returns the prompt that would be sent, or `None` when nothing is scheduled.
- The code sends the summary prompt as the only system message of a fresh chat context, then speaks the model's reply. It does not append the prompt to the conversation history, so the model follows the code here.
- Participant handling, `request_fnc`, `cli.run_app` and `WorkerOptions` are left out. They are job dispatch and session plumbing.
- `logging` calls and the `ai_callable` decorator metadata are left out. They are side effects only, or reflection over the library.
- `AssistantContext.get_current()` is left out. It is an ambient global lookup, replaced by an explicit context parameter and result. The `chat_ctx` argument of the interruption handler is unused by the source and is not modelled.
- Interruption.MarkInterrupted: returns the updated message instead of changing the message object the assistant library holds. The source handler returns nothing, and the history sees the new text through that shared reference. In the model, the caller must store the returned message back in place of the old one.
- TurnContext.Run: applies a round's calls one after another, each to completion. `toggle_light` is `async def`, and the assistant library, which is not part of this model, decides how a round's calls are scheduled. Sequential application is faithful because there is no `await` between the `get_metadata` read (line 36) and the `store_metadata` write (line 38), so no other call can run between them and no write is lost. "Call order" in the contracts means the order in which the library runs the calls.
- Python's in-place list mutation is left out. `li.append(room)` mutates the list that `get_metadata` returned, and `store_metadata` stores it back. The model builds the new list and stores it, which is equivalent whether `get_metadata` returns the stored list or a copy.
- Summary.SummaryPrompt, Summary.FunctionCallsDone: rooms are named by their `value` strings. As written, line 69 hands the `Room` members themselves to `", ".join`. That mismatch is kept apart as the finding below.

## Findings

| source | as written | input that shows it | evidently intended | confidence | as-written member | corrected member |
|---|---|---|---|---|---|---|
| examples/voice-assistant/assistant_calls.py:69 | `", ".join(enabled_rooms)` joins `Room` members; line 73 does the same for `disabled_rooms`. `Room` is a plain `Enum`, not a `str`, so the join raises `TypeError` on the first item. | `toggle_light(Room.BEDROOM, True)`, then the round completes: the scheduled `_handle_answer` task fails before building its prompt, and no summary is spoken. | Join the rooms' value strings (`", ".join(r.value for r in enabled_rooms)`). | medium, not executed. It assumes the library hands the tool the `Room` member that the annotation at line 30 asks for, rather than the raw string. | Summary.HandleAnswerAsWritten, Summary.AsWrittenSummaryFails | Summary.HandleAnswer |
