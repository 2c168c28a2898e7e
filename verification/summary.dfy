/**
 What happens when a tool-calling round is done: both lists are read from
 the round's context, a summary is scheduled only when one of them is
 non-empty, and the summary prompt lists the switched rooms on one line
 per status. `ParseSummary` reads such a prompt back.
 */
module Summary {
  import opened Wrappers
  import opened Strings
  import opened Rooms
  import opened TurnContext

  // The wording is written in pieces shorter than the solver's limit for
  // reasoning about single characters of a string literal, so facts such as
  // "the wording holds no line break" stay provable; the enabled and
  // disabled leads share the phrase about the rooms and differ in their
  // last characters.
  const Header: string := "Make a summary" + " of the following actions you did:"
  const RoomsPhrase: string := " in the following rooms"
  /** Lead of the enabled line; it ends in a colon. */
  const EnabledLead: string := " - You enabled the lights" + RoomsPhrase + ": "
  /** Lead of the disabled line; unlike the enabled lead it has no colon. */
  const DisabledLead: string := " - You disabled the lights" + RoomsPhrase + " "
  const NameSeparator: string := ", "
  const LineBreak: string := "\n"

  /** A summary is scheduled only when the round switched some light. */
  predicate SummaryScheduled(enabled: seq<Room>, disabled: seq<Room>)
  {
    |enabled| > 0 || |disabled| > 0
  }

  /**
   After a round started from an empty context, the handler's test on the
   two lists holds exactly when some `toggle_light` call ran.
   */
  lemma {:induction false} ScheduledIffToggleCalled(calls: seq<ToolCall>)
    ensures SummaryScheduled(GetMetadata(Run(map[], calls), EnabledKey, []),
                             GetMetadata(Run(map[], calls), DisabledKey, []))
            <==> exists i :: 0 <= i < |calls| && calls[i].ToggleLightCall?
  {
    RoundFromEmpty(calls);
    ToggleCountPositive(calls);
  }

  /** The value strings of the rooms, in order. */
  function RoomNames(rooms: seq<Room>): (names: seq<string>)
    ensures |names| == |rooms|
    ensures forall i :: 0 <= i < |rooms| ==> names[i] == Value(rooms[i])
  {
    seq(|rooms|, i requires 0 <= i < |rooms| => Value(rooms[i]))
  }

  /** The room names joined with ", ". */
  function JoinRooms(rooms: seq<Room>): string
  {
    Join(RoomNames(rooms), NameSeparator)
  }

  /** Looks every name up as a room; `None` if one of them is not a room's value. */
  function FromValues(names: seq<string>): (r: Option<seq<Room>>)
    ensures r.Some? ==> |r.value| == |names| && forall i :: 0 <= i < |names| ==> Value(r.value[i]) == names[i]
    ensures r.None? ==> exists i :: 0 <= i < |names| && FromValue(names[i]).None?
    decreases |names|
  {
    if |names| == 0 then Some([])
    else
      match FromValue(names[0])
      case None => None
      case Some(room) =>
        var rest := FromValues(names[1..]);
        if rest.None? then
          ghost var j :| 0 <= j < |names[1..]| && FromValue(names[1..][j]).None?;
          assert FromValue(names[j + 1]).None?;
          None
        else
          Some([room] + rest.value)
  }

  /** Reads back a ", "-separated list of room names. */
  function ParseRooms(s: string): Option<seq<Room>>
  {
    FromValues(Split(s, NameSeparator))
  }

  /** A non-empty room list survives being joined and read back. */
  lemma ParseJoinRooms(rooms: seq<Room>)
    requires |rooms| > 0
    ensures ParseRooms(JoinRooms(rooms)) == Some(rooms)
  {
    var names := RoomNames(rooms);
    SplitJoin(names, NameSeparator);
    var r := FromValues(names);
    if r.None? {
      var i :| 0 <= i < |names| && FromValue(names[i]).None?;
      ValueRoundTrip(rooms[i]);
    } else {
      forall i | 0 <= i < |rooms|
        ensures r.value[i] == rooms[i]
      {
        ValueInjective(r.value[i], rooms[i]);
      }
      assert r.value == rooms;
    }
  }

  /** The line that lists the enabled rooms. */
  function EnabledLine(rooms: seq<Room>): string
  {
    EnabledLead + JoinRooms(rooms)
  }

  /** The line that lists the disabled rooms. */
  function DisabledLine(rooms: seq<Room>): string
  {
    DisabledLead + JoinRooms(rooms)
  }

  /**
   The summary prompt, built as the round-complete handler builds it: the
   header, then the enabled line when there are enabled rooms, then the
   disabled line when there are disabled rooms, each after a line break.
   */
  function SummaryPrompt(enabled: seq<Room>, disabled: seq<Room>): (prompt: string)
    ensures Header <= prompt
    ensures !SummaryScheduled(enabled, disabled) <==> prompt == Header
  {
    var withEnabled :=
      if |enabled| > 0 then Header + LineBreak + EnabledLine(enabled) else Header;
    if |disabled| > 0 then withEnabled + LineBreak + DisabledLine(disabled)
    else withEnabled
  }

  predicate IsEnabledLine(line: string)
  {
    EnabledLead <= line
  }

  predicate IsDisabledLine(line: string)
  {
    DisabledLead <= line
  }

  /** The lines the prompt consists of, header first. */
  function SummaryLines(enabled: seq<Room>, disabled: seq<Room>): seq<string>
  {
    if |enabled| > 0 && |disabled| > 0 then [Header, EnabledLine(enabled), DisabledLine(disabled)]
    else if |enabled| > 0 then [Header, EnabledLine(enabled)]
    else if |disabled| > 0 then [Header, DisabledLine(disabled)]
    else [Header]
  }

  /** No line of the prompt holds a line break of its own. */
  lemma {:induction false} LinesHaveNoBreak(enabled: seq<Room>, disabled: seq<Room>)
    ensures forall i :: 0 <= i < |SummaryLines(enabled, disabled)| ==>
              LineBreak[0] !in SummaryLines(enabled, disabled)[i]
  {
    WordingHasNoBreak();
    JoinAvoids(RoomNames(enabled), NameSeparator, '\n');
    JoinAvoids(RoomNames(disabled), NameSeparator, '\n');
  }

  /** Splitting the prompt at line breaks gives exactly its lines. */
  lemma PromptLines(enabled: seq<Room>, disabled: seq<Room>)
    ensures Split(SummaryPrompt(enabled, disabled), LineBreak) == SummaryLines(enabled, disabled)
  {
    var lines := SummaryLines(enabled, disabled);
    var eLine := EnabledLine(enabled);
    var dLine := DisabledLine(disabled);
    if |enabled| > 0 && |disabled| > 0 {
      assert lines == [Header, eLine, dLine];
      JoinSmall(Header, eLine, dLine, LineBreak);
    } else if |enabled| > 0 {
      assert lines == [Header, eLine];
      JoinSmall(Header, eLine, dLine, LineBreak);
    } else if |disabled| > 0 {
      assert lines == [Header, dLine];
      JoinSmall(Header, dLine, dLine, LineBreak);
    } else {
      assert lines == [Header];
      JoinSmall(Header, dLine, dLine, LineBreak);
    }
    LinesHaveNoBreak(enabled, disabled);
    SplitJoin(lines, LineBreak);
  }

  /** None of the wording holds a line break. */
  lemma WordingHasNoBreak()
    ensures LineBreak[0] !in Header && LineBreak[0] !in EnabledLead && LineBreak[0] !in DisabledLead
  {
    assert LineBreak[0] == '\n';
    assert '\n' !in RoomsPhrase;
  }

  /** The characters that tell the header and the two leads apart. */
  lemma WordingDiffers()
    ensures |EnabledLead| > 7 && |DisabledLead| > 7 && |Header| > 0
    ensures Header[0] != EnabledLead[0] && Header[0] != DisabledLead[0]
    ensures EnabledLead[7] != DisabledLead[7]
  {
    assert Header[0] == 'M';
    assert EnabledLead[0] == ' ' && DisabledLead[0] == ' ';
    assert EnabledLead[7] == 'e' && DisabledLead[7] == 'd';
  }

  lemma HeaderIsNoActionLine()
    ensures !IsEnabledLine(Header) && !IsDisabledLine(Header)
  {
    WordingDiffers();
  }

  lemma ActionLinesDiffer(names: string)
    ensures !IsEnabledLine(DisabledLead + names)
    ensures !IsDisabledLine(EnabledLead + names)
  {
    WordingDiffers();
    assert (DisabledLead + names)[7] == DisabledLead[7];
    assert (EnabledLead + names)[7] == EnabledLead[7];
  }

  /** The summary prompt's lines, as separated by its line breaks. */
  function Lines(enabled: seq<Room>, disabled: seq<Room>): seq<string>
  {
    Split(SummaryPrompt(enabled, disabled), LineBreak)
  }

  /** Which of the lines is the enabled line and which the disabled line, by position. */
  lemma LineKinds(enabled: seq<Room>, disabled: seq<Room>)
    ensures forall i :: 0 <= i < |SummaryLines(enabled, disabled)| ==>
              (IsEnabledLine(SummaryLines(enabled, disabled)[i]) <==> |enabled| > 0 && i == 1)
    ensures forall i :: 0 <= i < |SummaryLines(enabled, disabled)| ==>
              (IsDisabledLine(SummaryLines(enabled, disabled)[i])
               <==> |disabled| > 0 && i == |SummaryLines(enabled, disabled)| - 1)
  {
    HeaderIsNoActionLine();
    ActionLinesDiffer(JoinRooms(enabled));
    ActionLinesDiffer(JoinRooms(disabled));
    assert IsEnabledLine(EnabledLine(enabled)) && IsDisabledLine(DisabledLine(disabled));
  }

  /**
   The prompt has an enabled line exactly when rooms were enabled, and
   that line lists the enabled rooms joined with ", ".
   */
  lemma EnabledLineIff(enabled: seq<Room>, disabled: seq<Room>)
    ensures (exists i :: 0 <= i < |Lines(enabled, disabled)|
                         && IsEnabledLine(Lines(enabled, disabled)[i]))
            <==> |enabled| > 0
    ensures forall i :: 0 <= i < |Lines(enabled, disabled)| ==>
              (IsEnabledLine(Lines(enabled, disabled)[i]) ==>
                 Lines(enabled, disabled)[i] == EnabledLine(enabled))
  {
    PromptLines(enabled, disabled);
    LineKinds(enabled, disabled);
    var lines := Lines(enabled, disabled);
    assert lines == SummaryLines(enabled, disabled);
    if |enabled| > 0 {
      assert IsEnabledLine(lines[1]);
    }
  }

  /**
   The prompt has a disabled line exactly when rooms were disabled, and
   that line lists the disabled rooms joined with ", ".
   */
  lemma DisabledLineIff(enabled: seq<Room>, disabled: seq<Room>)
    ensures (exists i :: 0 <= i < |Lines(enabled, disabled)|
                         && IsDisabledLine(Lines(enabled, disabled)[i]))
            <==> |disabled| > 0
    ensures forall i :: 0 <= i < |Lines(enabled, disabled)| ==>
              (IsDisabledLine(Lines(enabled, disabled)[i]) ==>
                 Lines(enabled, disabled)[i] == DisabledLine(disabled))
  {
    PromptLines(enabled, disabled);
    LineKinds(enabled, disabled);
    var lines := Lines(enabled, disabled);
    assert lines == SummaryLines(enabled, disabled);
    if |disabled| > 0 {
      assert IsDisabledLine(lines[|lines| - 1]);
    }
  }

  /** The prompt's first line is the header, and the enabled line precedes the disabled line. */
  lemma HeaderThenEnabledThenDisabled(enabled: seq<Room>, disabled: seq<Room>)
    ensures Lines(enabled, disabled)[0] == Header
    ensures forall i, j ::
              (0 <= i < |Lines(enabled, disabled)| &&
               0 <= j < |Lines(enabled, disabled)| &&
               IsEnabledLine(Lines(enabled, disabled)[i]) &&
               IsDisabledLine(Lines(enabled, disabled)[j])) ==> i < j
  {
    PromptLines(enabled, disabled);
    LineKinds(enabled, disabled);
    assert Lines(enabled, disabled) == SummaryLines(enabled, disabled);
  }

  /** Reads the optional disabled line that ends the prompt. */
  function ParseDisabledLines(lines: seq<string>): Option<seq<Room>>
  {
    if |lines| == 0 then Some([])
    else if |lines| == 1 && IsDisabledLine(lines[0]) then ParseRooms(lines[0][|DisabledLead|..])
    else None
  }

  /** Reads the optional enabled line and the optional disabled line that follow the header. */
  function ParseActionLines(lines: seq<string>): Option<(seq<Room>, seq<Room>)>
  {
    if |lines| > 0 && IsEnabledLine(lines[0]) then
      match (ParseRooms(lines[0][|EnabledLead|..]), ParseDisabledLines(lines[1..]))
      case (Some(enabled), Some(disabled)) => Some((enabled, disabled))
      case _ => None
    else
      match ParseDisabledLines(lines)
      case Some(disabled) => Some(([], disabled))
      case None => None
  }

  /** Recovers the enabled and disabled rooms from a summary prompt. */
  function ParseSummary(prompt: string): Option<(seq<Room>, seq<Room>)>
  {
    var lines := Split(prompt, LineBreak);
    if lines[0] != Header then None else ParseActionLines(lines[1..])
  }

  /** The disabled line, when present, reads back as the disabled rooms. */
  lemma DisabledLinesRoundTrip(disabled: seq<Room>)
    ensures ParseDisabledLines(if |disabled| > 0 then [DisabledLine(disabled)] else []) == Some(disabled)
  {
    if |disabled| > 0 {
      var dLine := DisabledLine(disabled);
      assert IsDisabledLine(dLine);
      assert dLine[|DisabledLead|..] == JoinRooms(disabled);
      ParseJoinRooms(disabled);
    }
  }

  /** An enabled line followed by the optional disabled line reads back as both lists. */
  lemma {:induction false} EnabledLinesRoundTrip(enabled: seq<Room>, disabled: seq<Room>)
    requires |enabled| > 0
    ensures ParseActionLines([EnabledLine(enabled)] + (if |disabled| > 0 then [DisabledLine(disabled)] else []))
            == Some((enabled, disabled))
  {
    var tail := if |disabled| > 0 then [DisabledLine(disabled)] else [];
    var rest := [EnabledLine(enabled)] + tail;
    var eLine := EnabledLine(enabled);
    DisabledLinesRoundTrip(disabled);
    assert IsEnabledLine(eLine);
    assert eLine[|EnabledLead|..] == JoinRooms(enabled);
    ParseJoinRooms(enabled);
    assert rest[0] == eLine && rest[1..] == tail;
  }

  /** The action lines after the header read back as the two room lists. */
  lemma {:induction false} ActionLinesRoundTrip(enabled: seq<Room>, disabled: seq<Room>)
    ensures ParseActionLines(SummaryLines(enabled, disabled)[1..]) == Some((enabled, disabled))
  {
    var tail := if |disabled| > 0 then [DisabledLine(disabled)] else [];
    var rest := SummaryLines(enabled, disabled)[1..];
    if |enabled| > 0 {
      EnabledLinesRoundTrip(enabled, disabled);
      assert rest == [EnabledLine(enabled)] + tail;
    } else {
      DisabledLinesRoundTrip(disabled);
      ActionLinesDiffer(JoinRooms(disabled));
      assert rest == tail;
    }
  }

  /** The prompt loses nothing: both room lists, in order, are read back from it. */
  lemma SummaryRoundTrip(enabled: seq<Room>, disabled: seq<Room>)
    ensures ParseSummary(SummaryPrompt(enabled, disabled)) == Some((enabled, disabled))
  {
    PromptLines(enabled, disabled);
    ActionLinesRoundTrip(enabled, disabled);
  }

  /**
   The round-complete handler: reads both lists (empty when absent) and
   yields the summary prompt to send, or nothing when no light was switched.
   */
  function FunctionCallsDone(ctx: Context): (r: Option<string>)
    ensures r.Some? <==> |GetMetadata(ctx, EnabledKey, [])| > 0 || |GetMetadata(ctx, DisabledKey, [])| > 0
    ensures r.Some? ==>
              ParseSummary(r.value)
              == Some((GetMetadata(ctx, EnabledKey, []), GetMetadata(ctx, DisabledKey, [])))
  {
    var enabled := GetMetadata(ctx, EnabledKey, []);
    var disabled := GetMetadata(ctx, DisabledKey, []);
    if SummaryScheduled(enabled, disabled) then
      SummaryRoundTrip(enabled, disabled);
      Some(SummaryPrompt(enabled, disabled))
    else None
  }

  /**
   Over a whole round started from an empty context: a summary is
   scheduled exactly when some `toggle_light` call ran, and it reports the
   rooms switched on and off, in call order.
   */
  lemma {:induction false} RoundSummary(calls: seq<ToolCall>)
    ensures FunctionCallsDone(Run(map[], calls)).Some? <==> ToggleCount(calls) > 0
    ensures FunctionCallsDone(Run(map[], calls)).Some? ==>
              ParseSummary(FunctionCallsDone(Run(map[], calls)).value)
              == Some((RoomsWith(calls, true), RoomsWith(calls, false)))
  {
    RoundFromEmpty(calls);
  }

  // The handler as written hands the Room members themselves to `", ".join`.

  /** A value handed to `str.join`: a string, or a member of the Room enumeration. */
  datatype JoinItem = StrItem(s: string) | RoomItem(room: Room)

  /** `str.join` rejects the first item that is not a string. */
  datatype TypeError = ExpectedStr(index: nat)

  /** The strings of the items; only meaningful when every item is a string. */
  function Texts(items: seq<JoinItem>): seq<string>
  {
    seq(|items|, i requires 0 <= i < |items| => if items[i].StrItem? then items[i].s else "")
  }

  /** `sep.join(items)`, including the type check on every item. */
  function CheckedJoin(sep: string, items: seq<JoinItem>): (r: Result<string, TypeError>)
    ensures r.Success? <==> forall i :: 0 <= i < |items| ==> items[i].StrItem?
    ensures r.Failure? ==>
              && r.error.index < |items|
              && items[r.error.index].RoomItem?
              && forall i :: 0 <= i < r.error.index ==> items[i].StrItem?
    ensures r.Success? ==> r.value == Join(Texts(items), sep)
    decreases |items|
  {
    if |items| == 0 then Success("")
    else if items[0].RoomItem? then Failure(ExpectedStr(0))
    else
      match CheckedJoin(sep, items[1..])
      case Failure(ExpectedStr(k)) => Failure(ExpectedStr(k + 1))
      case Success(tail) =>
        assert Texts(items)[1..] == Texts(items[1..]);
        if |items| == 1 then Success(items[0].s) else Success(items[0].s + sep + tail)
  }

  function RoomItems(rooms: seq<Room>): seq<JoinItem>
  {
    seq(|rooms|, i requires 0 <= i < |rooms| => RoomItem(rooms[i]))
  }

  function NameItems(rooms: seq<Room>): seq<JoinItem>
  {
    seq(|rooms|, i requires 0 <= i < |rooms| => StrItem(Value(rooms[i])))
  }

  /** Appends one action line when its rooms are non-empty, propagating a join failure. */
  function AddLine(prompt: Result<string, TypeError>, lead: string, rooms: seq<Room>,
                   items: seq<JoinItem>): Result<string, TypeError>
  {
    if prompt.Failure? || |rooms| == 0 then prompt
    else
      match CheckedJoin(NameSeparator, items)
      case Failure(e) => Failure(e)
      case Success(joined) => Success(prompt.value + LineBreak + (lead + joined))
  }

  /** The prompt construction exactly as written: the members themselves are joined. */
  function HandleAnswerAsWritten(enabled: seq<Room>, disabled: seq<Room>): (r: Result<string, TypeError>)
    ensures r.Success? <==> !SummaryScheduled(enabled, disabled)
    ensures r.Success? ==> r.value == Header
  {
    var withEnabled := AddLine(Success(Header), EnabledLead, enabled, RoomItems(enabled));
    AddLine(withEnabled, DisabledLead, disabled, RoomItems(disabled))
  }

  /** As written, every scheduled summary fails on the first room handed to the join. */
  lemma AsWrittenSummaryFails(enabled: seq<Room>, disabled: seq<Room>)
    requires SummaryScheduled(enabled, disabled)
    ensures HandleAnswerAsWritten(enabled, disabled) == Failure(ExpectedStr(0))
  {
    if |enabled| > 0 {
      assert RoomItems(enabled)[0].RoomItem?;
    } else {
      assert RoomItems(disabled)[0].RoomItem?;
    }
  }

  /** With value strings, adding a line never fails and appends the joined names. */
  lemma AddNamesLine(prompt: string, lead: string, rooms: seq<Room>)
    ensures AddLine(Success(prompt), lead, rooms, NameItems(rooms))
            == Success(if |rooms| > 0 then prompt + LineBreak + (lead + JoinRooms(rooms)) else prompt)
  {
    assert Texts(NameItems(rooms)) == RoomNames(rooms);
  }

  /** The construction with the rooms' value strings joined instead. */
  function HandleAnswer(enabled: seq<Room>, disabled: seq<Room>): (r: Result<string, TypeError>)
    ensures r == Success(SummaryPrompt(enabled, disabled))
    ensures ParseSummary(r.value) == Some((enabled, disabled))
  {
    AddNamesLine(Header, EnabledLead, enabled);
    var withEnabled := AddLine(Success(Header), EnabledLead, enabled, NameItems(enabled));
    AddNamesLine(withEnabled.value, DisabledLead, disabled);
    SummaryRoundTrip(enabled, disabled);
    AddLine(withEnabled, DisabledLead, disabled, NameItems(disabled))
  }
}
