/**
 * The bot (src/bot.js): startup, the inbound-message exchange, the `/test409`
 * and `/reset` commands, recovery from 409 polling conflicts, and shutdown.
 * Each handler is a method over the Telegram client (and the conversation
 * store), specified by a function of the replies the client gets.
 */
module Bot {
  import opened Wrappers
  import opened JsValue
  import opened Telegram
  import Ansi
  import Db
  import Ai

  const Apology: string := "Sorry, something went wrong. Please try again."
  const MissingTokenMessage: string := "TELEGRAM_BOT_TOKEN is not set in .env"
  const Test409Intro: string := "🧪 開始測試 409 錯誤處理..."
  const Test409Success: string := "✅ 409 錯誤處理測試成功！Polling 已重啟。"
  const Test409FailurePrefix: string := "❌ 409 錯誤處理測試失敗: "
  const ResetIntro: string := "🔄 正在重置 Bot..."
  const ResetSuccess: string := "✅ Bot 重置完成！"
  const ResetFailurePrefix: string := "❌ 重置失敗: "

  /** Recovery makes at most this many attempts per polling error. */
  const MaxAttempts: nat := 3

  // ---------------------------------------------------------------------------
  // Routing (src/bot.js:81,106,130-143).

  /** The parts of an inbound Telegram message the bot reads. */
  datatype Message = Message(chatId: int, from: Option<int>, text: Option<string>)

  /**
   * The generic handler goes past its filter: the sender is known (reading
   * `msg.from.id` comes first and throws otherwise), the text is non-empty
   * and does not start with "/".
   */
  predicate Routed(m: Message)
    ensures Routed(m) <==> m.from.Some? && m.text.Some? && |m.text.value| >= 1 && m.text.value[0] != '/'
  {
    m.from.Some? && m.text.Some? && m.text.value != "" && !("/" <= m.text.value)
  }

  predicate OccursAt(s: string, pattern: string, i: nat) {
    i + |pattern| <= |s| && s[i..i + |pattern|] == pattern
  }

  /** `pattern` occurs somewhere in `s`: an unanchored regular expression without metacharacters. */
  predicate Contains(s: string, pattern: string) {
    exists i: nat | i <= |s| :: OccursAt(s, pattern, i)
  }

  predicate FiresTest409(m: Message) {
    m.text.Some? && Contains(m.text.value, "/test409")
  }

  predicate FiresReset(m: Message) {
    m.text.Some? && Contains(m.text.value, "/reset")
  }

  /** A text that starts with a command runs the command, and the generic handler ignores it. */
  lemma LeadingCommand(m: Message)
    requires m.text.Some? && ("/reset" <= m.text.value || "/test409" <= m.text.value)
    ensures !Routed(m)
    ensures "/reset" <= m.text.value ==> FiresReset(m)
    ensures "/test409" <= m.text.value ==> FiresTest409(m)
  {
    var t := m.text.value;
    if "/reset" <= t {
      assert OccursAt(t, "/reset", 0);
    }
    if "/test409" <= t {
      assert OccursAt(t, "/test409", 0);
    }
  }

  /** The command patterns are unanchored: a command inside an ordinary message runs too. */
  lemma EmbeddedCommand()
    ensures var m := Message(1, Some(7), Some("please /reset"));
            Routed(m) && FiresReset(m) && !FiresTest409(m)
  {
    var t := "please /reset";
    assert t[0] == 'p';
    assert OccursAt(t, "/reset", 7);
    forall i: nat
      ensures !OccursAt(t, "/test409", i)
    {
      if i + 8 <= |t| {
        // "/test409" holds a '4', and no character of the text is one
        assert t[i..i + 8][6] == t[i + 6];
        assert t[i + 6] != '4';
      }
    }
  }

  // ---------------------------------------------------------------------------
  // 409 conflicts (src/bot.js:169).

  /** `error.code === 409 || (error.response && error.response.body && error.response.body.error_code === 409)` */
  predicate Is409(err: Value)
    requires !err.Nullish()
    ensures Is409(err) ==> err.Obj?
    ensures Member(err, "code") == Num(409) ==> Is409(err)
  {
    Member(err, "code") == Num(409) ||
    (Truthy(Member(err, "response")) && Truthy(Member(Member(err, "response"), "body")) &&
     Member(Member(Member(err, "response"), "body"), "error_code") == Num(409))
  }

  /** Without a response, only the numeric code decides; equality is strict, so the string "409" does not count. */
  lemma Is409WithoutResponse(err: Value)
    requires err.Obj? && "response" !in err.fields
    ensures Is409(err) <==> Member(err, "code") == Num(409)
    ensures Member(err, "code") == Str("409") ==> !Is409(err)
  {
  }

  /** A Telegram error reports the conflict in its response body, whatever its own code. */
  lemma Is409FromResponseBody(code: Value, rest: map<string, Value>)
    ensures var body := Obj(map["error_code" := Num(409)]);
            Is409(Obj(rest["code" := code]["response" := Obj(map["body" := body])]))
  {
    var body := Obj(map["error_code" := Num(409)]);
    var err := Obj(rest["code" := code]["response" := Obj(map["body" := body])]);
    assert Member(err, "response") == Obj(map["body" := body]);
  }

  // ---------------------------------------------------------------------------
  // Draining pending updates (src/bot.js:55-69,115-121,180-186).

  /**
   * Fetch a batch; when it is non-empty, confirm it with `offset` one past the
   * last `update_id`. Every drain swallows its own failures. At startup a
   * fetch that loses the race resolves to an empty batch, which leads to the
   * same steps as the failure the other drains see.
   */
  function DrainTrace(replies: seq<Reply>, limit: nat, timeout: nat): (t: Trace<Option<int>>)
    ensures |t.steps| >= 1 && t.steps[0] == Request(GetUpdates(None, limit, Some(timeout)))
    ensures t.result.Some? <==> Head(replies).Updates? && Head(replies).ids != []
    ensures t.result.Some? ==> t.steps == [t.steps[0], Request(GetUpdates(t.result, 1, None))]
    ensures t.result.None? ==> |t.steps| == 1 && t.rest == Tail(replies)
  {
    var fetch := Request(GetUpdates(None, limit, Some(timeout)));
    var batch := Head(replies);
    if batch.Updates? && batch.ids != [] then
      var offset := batch.ids[|batch.ids| - 1] + 1;
      Trace([fetch, Request(GetUpdates(Some(offset), 1, None))], Tail(Tail(replies)), Some(offset))
    else Trace([fetch], Tail(replies), None)
  }

  predicate Ascending(ids: seq<int>) {
    forall k :: 0 <= k < |ids| - 1 ==> ids[k] < ids[k + 1]
  }

  lemma {:induction false} AscendingBelowLast(ids: seq<int>)
    requires Ascending(ids)
    ensures forall k :: 0 <= k < |ids| ==> ids[k] <= ids[|ids| - 1]
    decreases |ids|
  {
    if |ids| > 1 {
      var init := ids[..|ids| - 1];
      assert Ascending(init) by {
        forall k | 0 <= k < |init| - 1
          ensures init[k] < init[k + 1]
        {
          assert init[k] == ids[k] && init[k + 1] == ids[k + 1];
        }
      }
      AscendingBelowLast(init);
      assert ids[|ids| - 2] < ids[|ids| - 1];
      forall k | 0 <= k < |ids| - 1
        ensures ids[k] <= ids[|ids| - 1]
      {
        assert ids[k] == init[k];
      }
    }
  }

  /**
   * Telegram confirms an update once `getUpdates` is called with an offset
   * above its id. For a batch in ascending order, the confirming offset covers
   * the whole batch, and it is one past the last id, so no update with a
   * higher id is confirmed.
   */
  lemma DrainConfirmsBatch(replies: seq<Reply>, limit: nat, timeout: nat)
    requires Head(replies).Updates? && Head(replies).ids != [] && Ascending(Head(replies).ids)
    ensures var ids := Head(replies).ids;
            var offset := DrainTrace(replies, limit, timeout).result.value;
            (forall k :: 0 <= k < |ids| ==> ids[k] < offset) &&
            offset == ids[|ids| - 1] + 1
  {
    AscendingBelowLast(Head(replies).ids);
  }

  method Drain(tg: Client, limit: nat, timeout: nat) returns (acked: Option<int>)
    modifies tg
    ensures var t := DrainTrace(old(tg.replies), limit, timeout);
            tg.log == old(tg.log) + t.steps && tg.replies == t.rest && acked == t.result
  {
    var batch := tg.Invoke(GetUpdates(None, limit, Some(timeout)));
    if batch.Updates? && batch.ids != [] {
      var offset := batch.ids[|batch.ids| - 1] + 1;
      var _ := tg.Invoke(GetUpdates(Some(offset), 1, None));
      return Some(offset);
    }
    return None;
  }

  // ---------------------------------------------------------------------------
  // Recovery from a 409 conflict (src/bot.js:170-199).

  /** One attempt: stop, delete the webhook, settle, drain, start; it succeeds when none of stop, delete, start fails. */
  function AttemptTrace(replies: seq<Reply>): Trace<bool> {
    var stop := Request(StopPolling);
    var delete := Request(DeleteWebHook);
    if !Ok(Head(replies)) then Trace([stop], Tail(replies), false)
    else
      var r := Tail(replies);
      if !Ok(Head(r)) then Trace([stop, delete], Tail(r), false)
      else
        var d := DrainTrace(Tail(r), 100, 30);
        Trace([stop, delete, Wait(RecoverySettle)] + d.steps + [Request(StartPolling)], Tail(d.rest), Ok(Head(d.rest)))
  }

  /** Attempts from `attempt` on, with a backoff after each failed attempt but the last. */
  function RecoveryTrace(replies: seq<Reply>, attempt: nat): Trace<bool>
    requires 1 <= attempt <= MaxAttempts
    decreases MaxAttempts - attempt
  {
    var a := AttemptTrace(replies);
    if a.result || attempt == MaxAttempts then a
    else
      var more := RecoveryTrace(a.rest, attempt + 1);
      Trace(a.steps + [Wait(Backoff)] + more.steps, more.rest, more.result)
  }

  /** An attempt opens by stopping the poller; a successful one deletes the webhook, settles, and ends by starting it. */
  lemma AttemptBracketed(replies: seq<Reply>)
    ensures var t := AttemptTrace(replies);
            |t.steps| >= 1 && t.steps[0] == Request(StopPolling) &&
            (t.result ==> |t.steps| >= 5 && t.steps[1] == Request(DeleteWebHook) && t.steps[2] == Wait(RecoverySettle) &&
                          t.steps[|t.steps| - 1] == Request(StartPolling))
  {
  }

  /** Recovery opens by stopping the poller, and a successful recovery ends by starting it again. */
  lemma {:induction false} RecoveryRestartsLast(replies: seq<Reply>, attempt: nat)
    requires 1 <= attempt <= MaxAttempts
    ensures var t := RecoveryTrace(replies, attempt);
            |t.steps| >= 1 && t.steps[0] == Request(StopPolling) &&
            (t.result ==> t.steps[|t.steps| - 1] == Request(StartPolling))
    decreases MaxAttempts - attempt
  {
    var a := AttemptTrace(replies);
    if !(a.result || attempt == MaxAttempts) {
      RecoveryRestartsLast(a.rest, attempt + 1);
    }
  }

  method RecoveryAttempt(tg: Client) returns (ok: bool)
    modifies tg
    ensures var t := AttemptTrace(old(tg.replies));
            tg.log == old(tg.log) + t.steps && tg.replies == t.rest && ok == t.result
  {
    var stopped := tg.Invoke(StopPolling);
    if !Ok(stopped) {
      return false;
    }
    var deleted := tg.Invoke(DeleteWebHook);
    if !Ok(deleted) {
      return false;
    }
    tg.Sleep(RecoverySettle);
    var _ := Drain(tg, 100, 30);
    var started := tg.Invoke(StartPolling);
    ok := Ok(started);
  }

  /**
   * One pass of the recovery loop: an attempt, and the backoff after a failed
   * attempt that is not the last. `tail` is what recovery from the next
   * attempt on then does.
   */
  method RecoveryRound(tg: Client, attempt: nat) returns (ok: bool)
    requires 1 <= attempt <= MaxAttempts
    modifies tg
    ensures old(tg.log) <= tg.log
    ensures var t := RecoveryTrace(old(tg.replies), attempt);
            (ok || attempt == MaxAttempts ==> tg.log == old(tg.log) + t.steps && tg.replies == t.rest && ok == t.result) &&
            (!ok && attempt < MaxAttempts ==>
               var tail := RecoveryTrace(tg.replies, attempt + 1);
               t == Trace(tg.log[|old(tg.log)|..] + tail.steps, tail.rest, tail.result))
  {
    RecoveryUnfold(tg.replies, attempt);
    ok := RecoveryAttempt(tg);
    if !ok && attempt < MaxAttempts {
      tg.Sleep(Backoff);
    }
  }

  datatype PollingOutcome = Logged | Recovered | GaveUp

  /** The `polling_error` handler; every error starts again from attempt 1. */
  method OnPollingError(err: Value, tg: Client) returns (outcome: PollingOutcome)
    requires !err.Nullish()
    modifies tg
    ensures !Is409(err) ==> outcome == Logged && tg.log == old(tg.log) && tg.replies == old(tg.replies)
    ensures Is409(err) ==>
              var t := RecoveryTrace(old(tg.replies), 1);
              tg.log == old(tg.log) + t.steps && tg.replies == t.rest &&
              outcome == if t.result then Recovered else GaveUp
  {
    if !Is409(err) {
      return Logged;
    }
    ghost var full := RecoveryTrace(tg.replies, 1);
    var attempt := 1;
    while attempt <= MaxAttempts
      invariant 1 <= attempt <= MaxAttempts + 1
      invariant old(tg.log) <= tg.log
      invariant attempt <= MaxAttempts ==>
                  var t := RecoveryTrace(tg.replies, attempt);
                  full == Trace(tg.log[|old(tg.log)|..] + t.steps, t.rest, t.result)
      invariant attempt > MaxAttempts ==> full == Trace(tg.log[|old(tg.log)|..], tg.replies, false)
      decreases MaxAttempts + 1 - attempt
    {
      ghost var logBefore := tg.log;
      ghost var t := RecoveryTrace(tg.replies, attempt);
      var ok := RecoveryRound(tg, attempt);
      SliceJoin(old(tg.log), logBefore, tg.log);
      if ok || attempt == MaxAttempts {
        ChainSteps(full, logBefore[|old(tg.log)|..], t, t.steps, Trace([], t.rest, t.result));
      } else {
        ChainSteps(full, logBefore[|old(tg.log)|..], t, tg.log[|logBefore|..], RecoveryTrace(tg.replies, attempt + 1));
      }
      if ok {
        return Recovered;
      }
      attempt := attempt + 1;
    }
    return GaveUp;
  }

  lemma SliceJoin(first: seq<Step>, middle: seq<Step>, last: seq<Step>)
    requires first <= middle <= last
    ensures last[|first|..] == middle[|first|..] + last[|middle|..]
  {
  }

  lemma ChainSteps<T>(full: Trace<T>, prefix: seq<Step>, t: Trace<T>, taken: seq<Step>, tail: Trace<T>)
    requires full == Trace(prefix + t.steps, t.rest, t.result)
    requires t == Trace(taken + tail.steps, tail.rest, tail.result)
    ensures full == Trace((prefix + taken) + tail.steps, tail.rest, tail.result)
  {
    assert prefix + (taken + tail.steps) == (prefix + taken) + tail.steps;
  }

  /** One step of the recovery recursion. */
  lemma RecoveryUnfold(replies: seq<Reply>, attempt: nat)
    requires 1 <= attempt <= MaxAttempts
    ensures var a := AttemptTrace(replies);
            var t := RecoveryTrace(replies, attempt);
            (a.result || attempt == MaxAttempts ==> t == a) &&
            (!a.result && attempt < MaxAttempts ==>
               var more := RecoveryTrace(a.rest, attempt + 1);
               t == Trace(a.steps + [Wait(Backoff)] + more.steps, more.rest, more.result))
  {
  }

  function Count(steps: seq<Step>, s: Step): nat {
    multiset(steps)[s]
  }

  lemma AttemptCounts(replies: seq<Reply>)
    ensures Count(AttemptTrace(replies).steps, Request(StopPolling)) == 1
    ensures Count(AttemptTrace(replies).steps, Wait(Backoff)) == 0
  {
    var r := Tail(replies);
    var t := AttemptTrace(replies);
    if Ok(Head(replies)) && Ok(Head(r)) {
      var d := DrainTrace(Tail(r), 100, 30);
      var head := [Request(StopPolling), Request(DeleteWebHook), Wait(RecoverySettle)];
      assert Request(StopPolling) !in d.steps && Wait(Backoff) !in d.steps;
      assert t.steps == head + d.steps + [Request(StartPolling)];
      assert multiset(t.steps) == multiset(head) + multiset(d.steps) + multiset([Request(StartPolling)]);
    } else if Ok(Head(replies)) {
      assert t.steps == [Request(StopPolling), Request(DeleteWebHook)];
    } else {
      assert t.steps == [Request(StopPolling)];
    }
  }

  /**
   * Recovery from `attempt` on stops polling once per attempt, at most
   * `MaxAttempts - attempt + 1` times, and backs off once fewer than it
   * attempts.
   */
  lemma {:induction false} RecoveryCounts(replies: seq<Reply>, attempt: nat)
    requires 1 <= attempt <= MaxAttempts
    ensures var t := RecoveryTrace(replies, attempt);
            1 <= Count(t.steps, Request(StopPolling)) <= MaxAttempts - attempt + 1 &&
            Count(t.steps, Wait(Backoff)) + 1 == Count(t.steps, Request(StopPolling))
    decreases MaxAttempts - attempt
  {
    var a := AttemptTrace(replies);
    AttemptCounts(replies);
    if !a.result && attempt < MaxAttempts {
      RecoveryCounts(a.rest, attempt + 1);
      var more := RecoveryTrace(a.rest, attempt + 1);
      assert multiset(a.steps + [Wait(Backoff)] + more.steps) == multiset(a.steps) + multiset{Wait(Backoff)} + multiset(more.steps);
    }
  }

  /** Per polling error: at most three attempts and at most two backoffs. */
  lemma RecoveryBounded(replies: seq<Reply>)
    ensures Count(RecoveryTrace(replies, 1).steps, Request(StopPolling)) <= 3
    ensures Count(RecoveryTrace(replies, 1).steps, Wait(Backoff)) <= 2
  {
    RecoveryCounts(replies, 1);
  }

  /** Past a successful stop and delete, the attempt's result is the start reply that follows the drain. */
  lemma AttemptDecidedByStart(replies: seq<Reply>)
    requires Ok(Head(replies)) && Ok(Head(Tail(replies)))
    ensures AttemptTrace(replies).result == Ok(Head(DrainTrace(Tail(Tail(replies)), 100, 30).rest))
  {
  }

  /** A failed or empty fetch does not fail an attempt: only stop, delete and start decide. */
  lemma UnfruitfulDrainNeverFailsAttempt(stop: Reply, delete: Reply, fetch: Reply, start: Reply, rest: seq<Reply>)
    requires Ok(stop) && Ok(delete) && !(fetch.Updates? && fetch.ids != [])
    ensures AttemptTrace([stop, delete, fetch, start] + rest).result == Ok(start)
  {
    var r3 := [start] + rest;
    var r2 := [fetch] + r3;
    var r1 := [delete] + r2;
    Unfold4(stop, delete, fetch, start, rest);
    HeadTail(stop, r1);
    HeadTail(delete, r2);
    HeadTail(fetch, r3);
    HeadTail(start, rest);
    assert DrainTrace(r2, 100, 30).rest == r3;
    AttemptDecidedByStart([stop] + r1);
  }

  lemma UnconfirmedDrainNeverFailsAttempt(stop: Reply, delete: Reply, fetch: Reply, confirm: Reply, start: Reply, rest: seq<Reply>)
    requires Ok(stop) && Ok(delete) && fetch.Updates? && fetch.ids != []
    ensures AttemptTrace([stop, delete, fetch, confirm, start] + rest).result == Ok(start)
  {
    var r4 := [start] + rest;
    var r3 := [confirm] + r4;
    var r2 := [fetch] + r3;
    var r1 := [delete] + r2;
    Unfold4(stop, delete, fetch, confirm, r4);
    assert [stop, delete, fetch, confirm, start] + rest == [stop, delete, fetch, confirm] + r4;
    HeadTail(stop, r1);
    HeadTail(delete, r2);
    HeadTail(fetch, r3);
    HeadTail(confirm, r4);
    HeadTail(start, rest);
    assert DrainTrace(r2, 100, 30).rest == r4;
    AttemptDecidedByStart([stop] + r1);
  }

  lemma HeadTail(x: Reply, xs: seq<Reply>)
    ensures Head([x] + xs) == x && Tail([x] + xs) == xs
  {
    assert ([x] + xs)[1..] == xs;
  }

  lemma Unfold4<T>(a: T, b: T, c: T, d: T, rest: seq<T>)
    ensures [a, b, c, d] + rest == [a] + ([b] + ([c] + ([d] + rest)))
  {
  }


  // ---------------------------------------------------------------------------
  // Startup (src/bot.js:7-78).

  /** The webhook reset and drain at startup; the result says whether the reset got through. */
  function CleanupTrace(replies: seq<Reply>): (t: Trace<bool>)
    ensures |t.steps| >= 1 && t.steps[0] == Request(SetWebHook(""))
    ensures t.result ==> |t.steps| >= 4 && t.steps[1] == Request(DeleteWebHook) && t.steps[2] == Wait(LockRelease)
    ensures Request(StartPolling) !in t.steps
  {
    var setHook := Request(SetWebHook(""));
    var delete := Request(DeleteWebHook);
    if !Ok(Head(replies)) then Trace([setHook], Tail(replies), false)
    else
      var r := Tail(replies);
      if !Ok(Head(r)) then Trace([setHook, delete], Tail(r), false)
      else
        var d := DrainTrace(Tail(r), 100, 30);
        Trace([setHook, delete, Wait(LockRelease)] + d.steps, d.rest, true)
  }

  datatype Startup = Started | StartFailed(message: string)

  function StartupTrace(token: Option<string>, replies: seq<Reply>): (t: Trace<Startup>)
    ensures (token.None? || token.value == "") ==> t.steps == [] && t.result == StartFailed(MissingTokenMessage)
    ensures t.result == Started ==> |t.steps| >= 3 && t.steps[0] == Request(GetMe) &&
                                    t.steps[|t.steps| - 1] == Request(StartPolling)
    ensures t.result == Started <==> Request(StartPolling) in t.steps
  {
    if token.None? || token.value == "" then Trace([], replies, StartFailed(MissingTokenMessage))
    else if !Ok(Head(replies)) then Trace([Request(GetMe)], Tail(replies), StartFailed(ErrorText(Head(replies))))
    else
      var c := CleanupTrace(Tail(replies));
      Trace([Request(GetMe)] + c.steps + [Request(StartPolling)], Tail(c.rest), Started)
  }

  method Cleanup(tg: Client) returns (reset: bool)
    modifies tg
    ensures var t := CleanupTrace(old(tg.replies));
            tg.log == old(tg.log) + t.steps && tg.replies == t.rest && reset == t.result
  {
    var hookSet := tg.Invoke(SetWebHook(""));
    if !Ok(hookSet) {
      return false;
    }
    var deleted := tg.Invoke(DeleteWebHook);
    if !Ok(deleted) {
      return false;
    }
    tg.Sleep(LockRelease);
    var _ := Drain(tg, 100, 30);
    return true;
  }

  /** `initBot`: `token` is `TELEGRAM_BOT_TOKEN`; `tg` is the freshly created client. */
  method InitBot(token: Option<string>, tg: Client) returns (outcome: Startup)
    modifies tg
    ensures var t := StartupTrace(token, old(tg.replies));
            tg.log == old(tg.log) + t.steps && tg.replies == t.rest && outcome == t.result
  {
    if token.None? || token.value == "" {
      return StartFailed(MissingTokenMessage);
    }
    var me := tg.Invoke(GetMe);
    if !Ok(me) {
      return StartFailed(ErrorText(me));
    }
    var _ := Cleanup(tg);
    // started without waiting for it: its outcome does not matter here
    var _ := tg.Invoke(StartPolling);
    return Started;
  }

  lemma CleanupNeverStartsPolling(replies: seq<Reply>)
    ensures Count(CleanupTrace(replies).steps, Request(StartPolling)) == 0
  {
    var c := CleanupTrace(replies);
    if Ok(Head(replies)) && Ok(Head(Tail(replies))) {
      var d := DrainTrace(Tail(Tail(replies)), 100, 30);
      assert Request(StartPolling) !in d.steps;
      assert c.steps == [Request(SetWebHook("")), Request(DeleteWebHook), Wait(LockRelease)] + d.steps;
    }
    assert Request(StartPolling) !in c.steps;
  }

  /** Startup fails only for a missing token, before any call, or for an unreachable `getMe`. */
  lemma StartupFailsOnlyEarly(token: Option<string>, replies: seq<Reply>)
    ensures var t := StartupTrace(token, replies);
            (token.None? || token.value == "" ==> t.steps == [] && t.result == StartFailed(MissingTokenMessage)) &&
            (t.result == Started <==> token.Some? && token.value != "" && Ok(Head(replies)))
  {
  }

  /** Whatever became of the cleanup, a started bot has started polling exactly once, as its last step. */
  lemma StartupPollsOnce(token: Option<string>, replies: seq<Reply>)
    ensures var t := StartupTrace(token, replies);
            (t.result.Started? ==> Count(t.steps, Request(StartPolling)) == 1 && t.steps[|t.steps| - 1] == Request(StartPolling)) &&
            (t.result.StartFailed? ==> Count(t.steps, Request(StartPolling)) == 0)
  {
    var t := StartupTrace(token, replies);
    if t.result.Started? {
      var c := CleanupTrace(Tail(replies));
      CleanupNeverStartsPolling(Tail(replies));
      assert t.steps == [Request(GetMe)] + c.steps + [Request(StartPolling)];
      assert multiset(t.steps) == multiset([Request(GetMe)]) + multiset(c.steps) + multiset([Request(StartPolling)]);
    }
  }

  // ---------------------------------------------------------------------------
  // Commands (src/bot.js:81-128).

  datatype CommandOutcome =
    | Completed
    | Reported(message: string)  // a step failed and the chat was told why
    /**
     * A send outside any `try` rejected with this message: the opening
     * announcement, or the catch's own failure report. The rejection leaves
     * the listener unhandled.
     */
    | Escaped(message: string)

  /**
   * The try block of `/test409`: stop, delete the webhook, start, announce
   * success. The result is the reply of the first step that failed.
   */
  function Test409Body(chatId: int, replies: seq<Reply>): (t: Trace<Option<Reply>>)
    ensures t.result.Some? ==> !Ok(t.result.value)
    ensures t.result.None? ==> |t.steps| >= 1 && t.steps[|t.steps| - 1] == Request(SendMessage(chatId, Test409Success))
  {
    var stop := Request(StopPolling);
    var delete := Request(DeleteWebHook);
    var start := Request(StartPolling);
    var success := Request(SendMessage(chatId, Test409Success));
    var r0 := Tail(replies);
    var r1 := Tail(r0);
    var r2 := Tail(r1);
    if !Ok(Head(replies)) then Trace([stop], r0, Some(Head(replies)))
    else if !Ok(Head(r0)) then Trace([stop, delete], r1, Some(Head(r0)))
    else if !Ok(Head(r1)) then Trace([stop, delete, start], r2, Some(Head(r1)))
    else if !Ok(Head(r2)) then Trace([stop, delete, start, success], Tail(r2), Some(Head(r2)))
    else Trace([stop, delete, start, success], Tail(r2), None)
  }

  /** The catch of a command: tell the chat what failed. */
  function Conclude(intro: Step, body: Trace<Option<Reply>>, chatId: int, prefix: string): Trace<CommandOutcome>
    requires body.result.Some? ==> !Ok(body.result.value)
  {
    match body.result
    case None => Trace([intro] + body.steps, body.rest, Completed)
    case Some(failure) =>
      var told := Head(body.rest);
      Trace([intro] + body.steps + [Request(SendMessage(chatId, prefix + ErrorText(failure)))], Tail(body.rest),
            if Ok(told) then Reported(ErrorText(failure)) else Escaped(ErrorText(told)))
  }

  /** The catch of a command, as a statement: report the block's failure, if any. */
  method Finish(ghost before: seq<Step>, ghost intro: Step, ghost body: Trace<Option<Reply>>,
                chatId: int, prefix: string, failure: Option<Reply>, tg: Client) returns (outcome: CommandOutcome)
    requires body.result.Some? ==> !Ok(body.result.value)
    requires tg.log == before + [intro] + body.steps && tg.replies == body.rest && failure == body.result
    modifies tg
    ensures var t := Conclude(intro, body, chatId, prefix);
            tg.log == before + t.steps && tg.replies == t.rest && outcome == t.result
  {
    if failure.None? {
      assert before + [intro] + body.steps == before + ([intro] + body.steps);
      return Completed;
    }
    var told := tg.Invoke(SendMessage(chatId, prefix + ErrorText(failure.value)));
    assert before + [intro] + body.steps + [Request(SendMessage(chatId, prefix + ErrorText(failure.value)))]
        == before + ([intro] + body.steps + [Request(SendMessage(chatId, prefix + ErrorText(failure.value)))]);
    outcome := if Ok(told) then Reported(ErrorText(failure.value)) else Escaped(ErrorText(told));
  }

  /** `/test409`: announce, run the try block, report a failure. */
  function Test409Trace(chatId: int, replies: seq<Reply>): Trace<CommandOutcome> {
    var intro := Request(SendMessage(chatId, Test409Intro));
    if !Ok(Head(replies)) then Trace([intro], Tail(replies), Escaped(ErrorText(Head(replies))))
    else Conclude(intro, Test409Body(chatId, Tail(replies)), chatId, Test409FailurePrefix)
  }

  method Test409Block(chatId: int, tg: Client) returns (failure: Option<Reply>)
    modifies tg
    ensures var t := Test409Body(chatId, old(tg.replies));
            tg.log == old(tg.log) + t.steps && tg.replies == t.rest && failure == t.result
  {
    var stopped := tg.Invoke(StopPolling);
    if !Ok(stopped) {
      return Some(stopped);
    }
    var deleted := tg.Invoke(DeleteWebHook);
    if !Ok(deleted) {
      return Some(deleted);
    }
    var started := tg.Invoke(StartPolling);
    if !Ok(started) {
      return Some(started);
    }
    var told := tg.Invoke(SendMessage(chatId, Test409Success));
    failure := if Ok(told) then None else Some(told);
  }

  method OnTest409(chatId: int, tg: Client) returns (outcome: CommandOutcome)
    modifies tg
    ensures var t := Test409Trace(chatId, old(tg.replies));
            tg.log == old(tg.log) + t.steps && tg.replies == t.rest && outcome == t.result
  {
    var intro := tg.Invoke(SendMessage(chatId, Test409Intro));
    if !Ok(intro) {
      return Escaped(ErrorText(intro));
    }
    ghost var body := Test409Body(chatId, tg.replies);
    assert Test409Trace(chatId, old(tg.replies)) == Conclude(Request(SendMessage(chatId, Test409Intro)), body, chatId, Test409FailurePrefix);
    var failure := Test409Block(chatId, tg);
    outcome := Finish(old(tg.log), Request(SendMessage(chatId, Test409Intro)), body, chatId, Test409FailurePrefix, failure, tg);
  }

  /** The try block of `/reset`: stop, delete the webhook, drain one update, start, announce success. */
  function ResetBody(chatId: int, replies: seq<Reply>): (t: Trace<Option<Reply>>)
    ensures t.result.Some? ==> !Ok(t.result.value)
    ensures t.result.None? ==> |t.steps| >= 1 && t.steps[|t.steps| - 1] == Request(SendMessage(chatId, ResetSuccess))
  {
    var stop := Request(StopPolling);
    var delete := Request(DeleteWebHook);
    var r0 := Tail(replies);
    if !Ok(Head(replies)) then Trace([stop], r0, Some(Head(replies)))
    else if !Ok(Head(r0)) then Trace([stop, delete], Tail(r0), Some(Head(r0)))
    else
      var d := DrainTrace(Tail(r0), 1, 1);
      var restarted := [stop, delete] + d.steps + [Request(StartPolling)];
      var r1 := Tail(d.rest);
      if !Ok(Head(d.rest)) then Trace(restarted, r1, Some(Head(d.rest)))
      else
        var done := restarted + [Request(SendMessage(chatId, ResetSuccess))];
        if !Ok(Head(r1)) then Trace(done, Tail(r1), Some(Head(r1))) else Trace(done, Tail(r1), None)
  }

  /** `/reset`: announce, run the try block, report a failure. */
  function ResetTrace(chatId: int, replies: seq<Reply>): Trace<CommandOutcome> {
    var intro := Request(SendMessage(chatId, ResetIntro));
    if !Ok(Head(replies)) then Trace([intro], Tail(replies), Escaped(ErrorText(Head(replies))))
    else Conclude(intro, ResetBody(chatId, Tail(replies)), chatId, ResetFailurePrefix)
  }

  method ResetBlock(chatId: int, tg: Client) returns (failure: Option<Reply>)
    modifies tg
    ensures var t := ResetBody(chatId, old(tg.replies));
            tg.log == old(tg.log) + t.steps && tg.replies == t.rest && failure == t.result
  {
    var stopped := tg.Invoke(StopPolling);
    if !Ok(stopped) {
      return Some(stopped);
    }
    var deleted := tg.Invoke(DeleteWebHook);
    if !Ok(deleted) {
      return Some(deleted);
    }
    ghost var d := DrainTrace(tg.replies, 1, 1);
    ghost var restarted := [Request(StopPolling), Request(DeleteWebHook)] + d.steps + [Request(StartPolling)];
    // the drain's own failures are swallowed
    var _ := Drain(tg, 1, 1);
    var started := tg.Invoke(StartPolling);
    assert tg.log == old(tg.log) + restarted;
    if !Ok(started) {
      return Some(started);
    }
    var told := tg.Invoke(SendMessage(chatId, ResetSuccess));
    assert tg.log == old(tg.log) + (restarted + [Request(SendMessage(chatId, ResetSuccess))]);
    failure := if Ok(told) then None else Some(told);
  }

  method OnReset(chatId: int, tg: Client) returns (outcome: CommandOutcome)
    modifies tg
    ensures var t := ResetTrace(chatId, old(tg.replies));
            tg.log == old(tg.log) + t.steps && tg.replies == t.rest && outcome == t.result
  {
    var intro := tg.Invoke(SendMessage(chatId, ResetIntro));
    if !Ok(intro) {
      return Escaped(ErrorText(intro));
    }
    ghost var body := ResetBody(chatId, tg.replies);
    assert ResetTrace(chatId, old(tg.replies)) == Conclude(Request(SendMessage(chatId, ResetIntro)), body, chatId, ResetFailurePrefix);
    var failure := ResetBlock(chatId, tg);
    outcome := Finish(old(tg.log), Request(SendMessage(chatId, ResetIntro)), body, chatId, ResetFailurePrefix, failure, tg);
  }

  /**
   * Once a command got past its announcement, its last step tells the chat how
   * it ended: the success text when the try block completed, the failure
   * prefix and error message otherwise. Only the delivery of that report can
   * still fail, and then the rejection escapes.
   */
  lemma ConcludeAnswers(intro: Step, body: Trace<Option<Reply>>, chatId: int, prefix: string, success: string)
    requires body.result.Some? ==> !Ok(body.result.value)
    requires body.result.None? ==> |body.steps| >= 1 && body.steps[|body.steps| - 1] == Request(SendMessage(chatId, success))
    ensures var t := Conclude(intro, body, chatId, prefix);
            |t.steps| >= 1 &&
            (t.result == Completed <==> body.result.None?) &&
            (t.result.Reported? ==> t.result.message == ErrorText(body.result.value)) &&
            t.steps[|t.steps| - 1] ==
              Request(SendMessage(chatId, if body.result.None? then success else prefix + ErrorText(body.result.value)))
  {
    var t := Conclude(intro, body, chatId, prefix);
    if body.result.None? {
      assert t.steps == [intro] + body.steps;
      assert t.steps[|t.steps| - 1] == body.steps[|body.steps| - 1];
    }
  }

  /**
   * `/test409` always ends with a message to the chat: the success message,
   * the failure report, or the send whose rejection escaped.
   */
  lemma Test409Answers(chatId: int, replies: seq<Reply>)
    ensures var t := Test409Trace(chatId, replies);
            |t.steps| >= 1 &&
            (t.result == Completed ==> t.steps[|t.steps| - 1] == Request(SendMessage(chatId, Test409Success))) &&
            (t.result.Reported? ==> t.steps[|t.steps| - 1] == Request(SendMessage(chatId, Test409FailurePrefix + t.result.message))) &&
            (t.result.Escaped? ==> t.steps[|t.steps| - 1].Request? && t.steps[|t.steps| - 1].call.SendMessage? &&
                                   t.steps[|t.steps| - 1].call.chatId == chatId)
  {
    if Ok(Head(replies)) {
      var body := Test409Body(chatId, Tail(replies));
      ConcludeAnswers(Request(SendMessage(chatId, Test409Intro)), body, chatId, Test409FailurePrefix, Test409Success);
    }
  }

  /**
   * `/reset` always ends with a message to the chat: the success message, the
   * failure report, or the send whose rejection escaped.
   */
  lemma ResetAnswers(chatId: int, replies: seq<Reply>)
    ensures var t := ResetTrace(chatId, replies);
            |t.steps| >= 1 &&
            (t.result == Completed ==> t.steps[|t.steps| - 1] == Request(SendMessage(chatId, ResetSuccess))) &&
            (t.result.Reported? ==> t.steps[|t.steps| - 1] == Request(SendMessage(chatId, ResetFailurePrefix + t.result.message))) &&
            (t.result.Escaped? ==> t.steps[|t.steps| - 1].Request? && t.steps[|t.steps| - 1].call.SendMessage? &&
                                   t.steps[|t.steps| - 1].call.chatId == chatId)
  {
    if Ok(Head(replies)) {
      var body := ResetBody(chatId, Tail(replies));
      ConcludeAnswers(Request(SendMessage(chatId, ResetIntro)), body, chatId, ResetFailurePrefix, ResetSuccess);
    }
  }

  // ---------------------------------------------------------------------------
  // The message exchange (src/bot.js:130-166).

  /**
   * What the message handler did: its calls, the replies left, the turns it
   * stored, whether it reached the AI, and whether an error escaped the
   * listener unhandled (reading the sender of a message without one, or an
   * apology whose own send rejected inside the `catch`).
   */
  datatype Exchange = Exchange(steps: seq<Step>, rest: seq<Reply>, stored: seq<Db.Turn>, aiCalled: bool, escaped: bool)

  /**
   * What the handler does once the AI call has settled: a failure, or a reply
   * that is not a string (`.replace` throws), gets the apology; a string is
   * cleaned, both turns are stored, and the cleaned text is sent, with the
   * apology after it when that send fails.
   */
  function AnswerTrace(chatId: int, text: string, answer: Ai.AiOutcome, replies: seq<Reply>): Exchange {
    var apology := Request(SendMessage(chatId, Apology));
    if !(answer.Resolved? && answer.value.Str?) then Exchange([apology], Tail(replies), [], true, !Ok(Head(replies)))
    else
      var clean := Ansi.Clean(answer.value.s);
      var turns := [Db.Turn("user", text), Db.Turn("assistant", clean)];
      var reply := Request(SendMessage(chatId, clean));
      if Ok(Head(replies)) then Exchange([reply], Tail(replies), turns, true, false)
      else Exchange([reply, apology], Tail(Tail(replies)), turns, true, !Ok(Head(Tail(replies))))
  }

  /**
   * What the generic handler does with a message, given whether the store is
   * open and how the AI call settles (`None`: it never does).
   */
  function ExchangeTrace(m: Message, storeOpen: bool, answer: Option<Ai.AiOutcome>, replies: seq<Reply>): Exchange {
    if m.from.None? then Exchange([], replies, [], false, true)
    else if !Routed(m) then Exchange([], replies, [], false, false)
    else ConverseTrace(m.chatId, m.text.value, storeOpen, answer, replies)
  }

  /** A routed message: typing indicator, history, AI call, then the answer or an apology. */
  function ConverseTrace(chatId: int, text: string, storeOpen: bool, answer: Option<Ai.AiOutcome>, replies: seq<Reply>): Exchange {
    var typing := Request(SendChatAction(chatId, "typing"));
    var r := Tail(replies);
    if !Ok(Head(replies)) || !storeOpen then
      Exchange([typing, Request(SendMessage(chatId, Apology))], Tail(r), [], false, !Ok(Head(r)))
    else match answer
      case None => Exchange([typing], r, [], true, false)
      case Some(o) =>
        var x := AnswerTrace(chatId, text, o, r);
        Exchange([typing] + x.steps, x.rest, x.stored, true, x.escaped)
  }

  /**
   * A settled AI call always leads to a message: the apology, or the cleaned
   * reply after both turns are stored. An escape can only be the apology's.
   */
  lemma AnswerShape(chatId: int, text: string, answer: Ai.AiOutcome, replies: seq<Reply>)
    ensures var x := AnswerTrace(chatId, text, answer, replies);
            x.aiCalled && |x.steps| >= 1 && (|x.stored| == 0 || |x.stored| == 2) &&
            (x.stored == [] <==> !(answer.Resolved? && answer.value.Str?)) &&
            (x.stored == [] ==> x.steps == [Request(SendMessage(chatId, Apology))]) &&
            (x.stored != [] ==> x.stored[0] == Db.Turn("user", text) && x.stored[1].role == "assistant" &&
                                x.steps[0] == Request(SendMessage(chatId, x.stored[1].content))) &&
            (x.escaped ==> x.steps[|x.steps| - 1] == Request(SendMessage(chatId, Apology)))
  {
  }

  /**
   * A routed message first gets the typing indicator; turns are stored only
   * when the store is open and the AI call settled. An escape can only be the
   * apology's.
   */
  lemma ConverseShape(chatId: int, text: string, storeOpen: bool, answer: Option<Ai.AiOutcome>, replies: seq<Reply>)
    ensures var x := ConverseTrace(chatId, text, storeOpen, answer, replies);
            |x.steps| >= 1 && x.steps[0] == Request(SendChatAction(chatId, "typing")) &&
            (x.stored != [] ==> storeOpen && x.aiCalled && answer.Some?) &&
            (x.escaped ==> x.steps[|x.steps| - 1] == Request(SendMessage(chatId, Apology)))
  {
    if Ok(Head(replies)) && storeOpen && answer.Some? {
      AnswerShape(chatId, text, answer.value, Tail(replies));
    }
  }

  /** The part of the handler after `processMessage` has settled with `answer`. */
  method Respond(chatId: int, userId: int, text: string, answer: Ai.AiOutcome, tg: Client, store: Db.ConversationStore)
    requires store.Valid() && store.handle == Db.Open
    modifies tg, store
    ensures store.Valid()
    ensures var x := AnswerTrace(chatId, text, answer, old(tg.replies));
            tg.log == old(tg.log) + x.steps && tg.replies == x.rest &&
            store.handle == old(store.handle) &&
            store.rows == old(store.rows) + Db.RowsOf(userId, old(store.nextId), x.stored) &&
            store.nextId == old(store.nextId) + |x.stored|
  {
    if !(answer.Resolved? && answer.value.Str?) {
      // a rejection, or `.replace` on a reply that is not a string
      var _ := tg.Invoke(SendMessage(chatId, Apology));
      return;
    }
    var clean := Ansi.Clean(answer.value.s);
    // the store is open, so both inserts succeed
    var _ := store.AddMessage(userId, "user", text);
    var _ := store.AddMessage(userId, "assistant", clean);
    Db.RowsOfTwo(userId, old(store.nextId), Db.Turn("user", text), Db.Turn("assistant", clean));
    var sent := tg.Invoke(SendMessage(chatId, clean));
    if !Ok(sent) {
      var _ := tg.Invoke(SendMessage(chatId, Apology));
    }
  }

  /**
   * The generic `message` handler. `env`, `child`, `http` and `parse` are
   * what the AI call meets. Returns the outside call the AI step made, if it
   * got that far.
   */
  method OnMessage(m: Message, tg: Client, store: Db.ConversationStore, env: Ai.Env,
                   child: seq<Ai.ChildEvent>, http: Ai.HttpExchange, parse: Ai.Parser)
    returns (call: Option<Ai.Invocation>)
    requires store.Valid()
    modifies tg, store
    ensures store.Valid()
    ensures var x := ExchangeTrace(m, old(store.handle) == Db.Open, Ai.Answer(env, child, http, parse), old(tg.replies));
            tg.log == old(tg.log) + x.steps && tg.replies == x.rest &&
            store.handle == old(store.handle) &&
            store.rows == old(store.rows) + (if Routed(m) then Db.RowsOf(m.from.value, old(store.nextId), x.stored) else []) &&
            store.nextId == old(store.nextId) + |x.stored| &&
            call == if x.aiCalled
                    then Some(Ai.Dispatch(m.from.value, m.text.value,
                                          Db.Limit(Db.UserTurns(old(store.rows), m.from.value), Db.DefaultHistoryLimit), env))
                    else None
  {
    call := None;
    if m.from.None? {
      return;
    }
    if m.text.None? || m.text.value == "" || "/" <= m.text.value {
      return;
    }
    call := Converse(m.chatId, m.from.value, m.text.value, tg, store, env, child, http, parse);
  }

  /** The handler's work for a routed message from `userId` with `text`. */
  method Converse(chatId: int, userId: int, text: string, tg: Client, store: Db.ConversationStore, env: Ai.Env,
                  child: seq<Ai.ChildEvent>, http: Ai.HttpExchange, parse: Ai.Parser)
    returns (call: Option<Ai.Invocation>)
    requires store.Valid()
    modifies tg, store
    ensures store.Valid()
    ensures var x := ConverseTrace(chatId, text, old(store.handle) == Db.Open, Ai.Answer(env, child, http, parse), old(tg.replies));
            tg.log == old(tg.log) + x.steps && tg.replies == x.rest &&
            store.handle == old(store.handle) &&
            store.rows == old(store.rows) + Db.RowsOf(userId, old(store.nextId), x.stored) &&
            store.nextId == old(store.nextId) + |x.stored| &&
            call == if x.aiCalled
                    then Some(Ai.Dispatch(userId, text, Db.Limit(Db.UserTurns(old(store.rows), userId), Db.DefaultHistoryLimit), env))
                    else None
  {
    call := None;
    var typing := tg.Invoke(SendChatAction(chatId, "typing"));
    if !Ok(typing) {
      var _ := tg.Invoke(SendMessage(chatId, Apology));
      return;
    }
    var history := store.GetChatHistory(userId, Db.DefaultHistoryLimit);
    if history.Failure? {
      var _ := tg.Invoke(SendMessage(chatId, Apology));
      return;
    }
    var invocation, outcome := Ai.ProcessMessage(userId, text, history.value, env, child, http, parse);
    call := Some(invocation);
    if outcome.None? {
      return;
    }
    Respond(chatId, userId, text, outcome.value, tg, store);
  }


  /**
   * A message without text, or whose text starts with "/", makes no call and
   * stores nothing; it only throws when it has no sender.
   */
  lemma FilteredMessageIsInert(m: Message, storeOpen: bool, answer: Option<Ai.AiOutcome>, replies: seq<Reply>)
    requires m.text.None? || m.text.value == "" || "/" <= m.text.value
    ensures var x := ExchangeTrace(m, storeOpen, answer, replies);
            x.steps == [] && x.rest == replies && x.stored == [] && !x.aiCalled &&
            (x.escaped <==> m.from.None?)
  {
  }

  /**
   * An error escapes the handler only when the message has no sender, or
   * when the apology, the handler's last step, could not be sent.
   */
  lemma EscapeMeansLostApology(m: Message, storeOpen: bool, answer: Option<Ai.AiOutcome>, replies: seq<Reply>)
    ensures var x := ExchangeTrace(m, storeOpen, answer, replies);
            x.escaped ==>
              m.from.None? ||
              (|x.steps| >= 1 && x.steps[|x.steps| - 1] == Request(SendMessage(m.chatId, Apology)))
  {
  }

  /**
   * A successful answer stores exactly two turns, the user's text then the
   * cleaned reply, and the cleaned reply is the text sent back.
   */
  lemma ExchangeStoresWhatItSends(m: Message, storeOpen: bool, answer: Option<Ai.AiOutcome>, replies: seq<Reply>)
    ensures var x := ExchangeTrace(m, storeOpen, answer, replies);
            x.stored != [] ==>
              answer.Some? && answer.value.Resolved? && answer.value.value.Str? &&
              x.stored == [Db.Turn("user", m.text.value), Db.Turn("assistant", Ansi.Clean(answer.value.value.s))] &&
              x.steps[1] == Request(SendMessage(m.chatId, x.stored[1].content))
  {
  }

  /** When the AI call fails, nothing is stored and the apology is the only message sent. */
  lemma FailedAnswerApologises(m: Message, message: string, replies: seq<Reply>)
    requires Routed(m) && Ok(Head(replies))
    ensures var x := ExchangeTrace(m, true, Some(Ai.Rejected(message)), replies);
            x.stored == [] && x.aiCalled &&
            x.steps == [Request(SendChatAction(m.chatId, "typing")), Request(SendMessage(m.chatId, Apology))]
  {
  }

  /** After an exchange the sender's history ends with the stored turns and no one else's changes. */
  lemma ExchangeHistory(rows: seq<Db.Row>, nextId: nat, m: Message, storeOpen: bool,
                        answer: Option<Ai.AiOutcome>, replies: seq<Reply>, v: int)
    requires Routed(m)
    ensures var x := ExchangeTrace(m, storeOpen, answer, replies);
            Db.UserTurns(rows + Db.RowsOf(m.from.value, nextId, x.stored), v) ==
            Db.UserTurns(rows, v) + (if v == m.from.value then x.stored else [])
  {
    var x := ExchangeTrace(m, storeOpen, answer, replies);
    Db.HistoryOfInserts(rows, m.from.value, nextId, x.stored, v);
  }

  // ---------------------------------------------------------------------------
  // Shutdown (src/bot.js:205-213).

  /** Stop polling, then exit 0 when that succeeded and 1 otherwise. */
  method GracefulShutdown(tg: Client) returns (exitCode: int)
    modifies tg
    ensures tg.log == old(tg.log) + [Request(StopPolling)] && tg.replies == Tail(old(tg.replies))
    ensures exitCode == if Ok(Head(old(tg.replies))) then 0 else 1
  {
    var stopped := tg.Invoke(StopPolling);
    exitCode := if Ok(stopped) then 0 else 1;
  }
}
