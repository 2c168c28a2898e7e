/**
 The per-round metadata store the tool handlers write to, and the two
 tools the assistant exposes: `toggle_light`, which records the room under
 "enabled_rooms" or "disabled_rooms", and `stop_speaking`, which does
 nothing. The ambient "current context" is passed in and returned.
 */
module TurnContext {
  import opened Rooms

  /** Metadata of one tool-calling round: key to the rooms recorded under it. */
  type Context = map<string, seq<Room>>

  const EnabledKey: string := "enabled_rooms"
  const DisabledKey: string := "disabled_rooms"

  /** The key `toggle_light` writes for a given status. */
  function KeyFor(status: bool): (key: string)
    ensures key == EnabledKey <==> status
    ensures key == DisabledKey <==> !status
  {
    if status then EnabledKey else DisabledKey
  }

  /** The list stored under `key`, or `default` when the key is absent. */
  function GetMetadata(ctx: Context, key: string, default: seq<Room>): seq<Room>
  {
    if key in ctx then ctx[key] else default
  }

  /** Replaces the list stored under `key`. */
  function StoreMetadata(ctx: Context, key: string, values: seq<Room>): Context
  {
    ctx[key := values]
  }

  /**
   `toggle_light(room, status)`: reads the list under the status's key
   (empty when absent), appends the room and stores the list back.
   */
  function ToggleLight(ctx: Context, room: Room, status: bool): (r: Context)
    ensures r.Keys == ctx.Keys + {KeyFor(status)}
    ensures KeyFor(status) in ctx ==> r[KeyFor(status)] == ctx[KeyFor(status)] + [room]
    ensures KeyFor(status) !in ctx ==> r[KeyFor(status)] == [room]
    ensures forall k :: k in ctx && k != KeyFor(status) ==> r[k] == ctx[k]
  {
    var key := KeyFor(status);
    var li := GetMetadata(ctx, key, []);
    StoreMetadata(ctx, key, li + [room])
  }

  /** `stop_speaking()`: acknowledged, nothing recorded. */
  function StopSpeaking(ctx: Context): (r: Context)
    ensures r == ctx
  {
    ctx
  }

  /** One tool invocation requested by the language model. */
  datatype ToolCall = ToggleLightCall(room: Room, status: bool) | StopSpeakingCall

  function Dispatch(ctx: Context, call: ToolCall): Context
  {
    match call
    case ToggleLightCall(room, status) => ToggleLight(ctx, room, status)
    case StopSpeakingCall => StopSpeaking(ctx)
  }

  /** The context after the calls of one round have run, first call first. */
  function Run(ctx: Context, calls: seq<ToolCall>): Context
  {
    if |calls| == 0 then ctx
    else Dispatch(Run(ctx, calls[..|calls| - 1]), calls[|calls| - 1])
  }

  /** Reference definition: the rooms of the `toggle_light` calls with this status, in call order. */
  function RoomsWith(calls: seq<ToolCall>, status: bool): seq<Room>
  {
    if |calls| == 0 then []
    else
      var last := calls[|calls| - 1];
      RoomsWith(calls[..|calls| - 1], status)
        + (if last.ToggleLightCall? && last.status == status then [last.room] else [])
  }

  /** Number of `toggle_light` calls. */
  function ToggleCount(calls: seq<ToolCall>): nat
  {
    if |calls| == 0 then 0
    else ToggleCount(calls[..|calls| - 1]) + (if calls[|calls| - 1].ToggleLightCall? then 1 else 0)
  }

  /** The count is positive exactly when some call of the round is a `toggle_light` call. */
  lemma {:induction false} ToggleCountPositive(calls: seq<ToolCall>)
    ensures ToggleCount(calls) > 0 <==> exists i :: 0 <= i < |calls| && calls[i].ToggleLightCall?
    decreases |calls|
  {
    if |calls| > 0 {
      var init := calls[..|calls| - 1];
      ToggleCountPositive(init);
      if ToggleCount(init) > 0 {
        var i :| 0 <= i < |init| && init[i].ToggleLightCall?;
        assert calls[i] == init[i];
      }
      if exists i :: 0 <= i < |calls| && calls[i].ToggleLightCall? {
        var i :| 0 <= i < |calls| && calls[i].ToggleLightCall?;
        if i < |init| {
          assert init[i] == calls[i];
        }
      }
    }
  }

  /** The calls of a round with the `stop_speaking` calls left out. */
  function TogglesOnly(calls: seq<ToolCall>): (r: seq<ToolCall>)
    ensures forall i :: 0 <= i < |r| ==> r[i].ToggleLightCall?
  {
    if |calls| == 0 then []
    else
      var last := calls[|calls| - 1];
      TogglesOnly(calls[..|calls| - 1]) + (if last.ToggleLightCall? then [last] else [])
  }

  /**
   Every `toggle_light` call lands at the end of its status's list, in call
   order, and no key other than the two is touched.
   */
  lemma {:induction false} RunAppends(ctx: Context, calls: seq<ToolCall>, status: bool)
    ensures GetMetadata(Run(ctx, calls), KeyFor(status), [])
            == GetMetadata(ctx, KeyFor(status), []) + RoomsWith(calls, status)
    ensures KeyFor(status) in Run(ctx, calls) <==> KeyFor(status) in ctx || |RoomsWith(calls, status)| > 0
    ensures Run(ctx, calls).Keys <= ctx.Keys + {EnabledKey, DisabledKey}
    ensures forall k :: k in ctx && k != EnabledKey && k != DisabledKey ==>
              k in Run(ctx, calls) && Run(ctx, calls)[k] == ctx[k]
    decreases |calls|
  {
    if |calls| > 0 {
      var init := calls[..|calls| - 1];
      RunAppends(ctx, init, status);
    }
  }

  /** The two lists together hold one entry per `toggle_light` call. */
  lemma {:induction false} RoomsWithCount(calls: seq<ToolCall>)
    ensures |RoomsWith(calls, true)| + |RoomsWith(calls, false)| == ToggleCount(calls)
    decreases |calls|
  {
    if |calls| > 0 {
      RoomsWithCount(calls[..|calls| - 1]);
    }
  }

  /**
   A round started from an empty context: "enabled_rooms" holds exactly
   the rooms switched on and "disabled_rooms" those switched off, in call
   order, no write is lost and no other key appears.
   */
  lemma {:induction false} RoundFromEmpty(calls: seq<ToolCall>)
    ensures GetMetadata(Run(map[], calls), EnabledKey, []) == RoomsWith(calls, true)
    ensures GetMetadata(Run(map[], calls), DisabledKey, []) == RoomsWith(calls, false)
    ensures |GetMetadata(Run(map[], calls), EnabledKey, [])|
            + |GetMetadata(Run(map[], calls), DisabledKey, [])| == ToggleCount(calls)
    ensures Run(map[], calls).Keys <= {EnabledKey, DisabledKey}
    ensures EnabledKey in Run(map[], calls) <==> |RoomsWith(calls, true)| > 0
    ensures DisabledKey in Run(map[], calls) <==> |RoomsWith(calls, false)| > 0
  {
    RunAppends(map[], calls, true);
    RunAppends(map[], calls, false);
    RoomsWithCount(calls);
  }

  /** `stop_speaking` calls, wherever they fall in a round, change nothing. */
  lemma {:induction false} StopSpeakingIsNoOp(ctx: Context, calls: seq<ToolCall>)
    ensures Run(ctx, calls) == Run(ctx, TogglesOnly(calls))
    decreases |calls|
  {
    if |calls| > 0 {
      var init := calls[..|calls| - 1];
      var last := calls[|calls| - 1];
      StopSpeakingIsNoOp(ctx, init);
      if last.ToggleLightCall? {
        var t := TogglesOnly(init) + [last];
        assert TogglesOnly(calls) == t;
        assert t[..|t| - 1] == TogglesOnly(init);
        calc {
          Run(ctx, t);
          Dispatch(Run(ctx, TogglesOnly(init)), last);
          Dispatch(Run(ctx, init), last);
          Run(ctx, calls);
        }
      } else {
        assert TogglesOnly(calls) == TogglesOnly(init) + [];
        assert TogglesOnly(init) + [] == TogglesOnly(init);
        calc {
          Run(ctx, calls);
          Dispatch(Run(ctx, init), last);
          Run(ctx, init);
        }
      }
    }
  }
}
