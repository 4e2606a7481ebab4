/**
 * The Telegram Bot API client the bot drives (the `bot` object of
 * src/bot.js:5,24). Every request gets one reply from a script supplied up
 * front, so each handler's behaviour is a function of the replies it meets.
 * The client keeps the log of what was asked of it, pauses included.
 */
module Telegram {
  import opened Wrappers

  datatype Call =
    | GetMe
    | SetWebHook(url: string)
    | DeleteWebHook
    | GetUpdates(offset: Option<int>, limit: nat, timeout: Option<nat>)
    | StartPolling
    | StopPolling
    | SendChatAction(chatId: int, action: string)
    | SendMessage(chatId: int, text: string)

  /** The fixed pauses of the bot; only their place in the sequence is modelled. */
  datatype Pause =
    | LockRelease      // after the webhook reset at startup
    | RecoverySettle   // inside a 409 recovery attempt
    | Backoff          // between failed recovery attempts

  datatype Step = Request(call: Call) | Wait(pause: Pause)

  datatype Reply =
    | Done                     // the call succeeded
    | Updates(ids: seq<int>)   // `getUpdates` succeeded with these `update_id`s, in order
    | Failed(message: string)  // the call rejected with an error carrying this message
    | TimedOut                 // no answer before the timer raced against the call

  predicate Ok(r: Reply) {
    r.Done? || r.Updates?
  }

  /** The `message` of the error a failed call rejects with; a lost race rejects with "Timeout". */
  function ErrorText(r: Reply): (m: string)
    requires !Ok(r)
    ensures r.Failed? ==> m == r.message
    ensures m == "Timeout" <==> r.TimedOut? || r.message == "Timeout"
  {
    if r.Failed? then r.message else "Timeout"
  }

  /** The reply the next call gets: an exhausted script never answers. */
  function Head(replies: seq<Reply>): Reply {
    if replies == [] then TimedOut else replies[0]
  }

  function Tail(replies: seq<Reply>): (rest: seq<Reply>)
    ensures |rest| == if replies == [] then 0 else |replies| - 1
  {
    if replies == [] then [] else replies[1..]
  }

  /** What a handler did: the steps it took, the replies it left, and its result. */
  datatype Trace<T> = Trace(steps: seq<Step>, rest: seq<Reply>, result: T)

  class Client {
    /** The replies the following calls get, in order. */
    var replies: seq<Reply>
    /** Everything asked of the client so far. */
    var log: seq<Step>

    constructor (script: seq<Reply>)
      ensures replies == script && log == []
    {
      replies := script;
      log := [];
    }

    method Invoke(c: Call) returns (r: Reply)
      modifies this
      ensures r == Head(old(replies))
      ensures replies == Tail(old(replies))
      ensures log == old(log) + [Request(c)]
    {
      r := Head(replies);
      replies := Tail(replies);
      log := log + [Request(c)];
    }

    method Sleep(p: Pause)
      modifies this
      ensures replies == old(replies)
      ensures log == old(log) + [Wait(p)]
    {
      log := log + [Wait(p)];
    }
  }
}
