/** What the whole-channel mute and unmute loops (cogs/channel_mute.py and bot.py)
    accumulate: a success counter, a list of per-member errors, and the edit calls
    they issue. One member's failure is recorded and the loop goes on. */
module BulkTally {
  import opened Gateway

  /** One line of a bulk command's error list: the edit was refused for lack of
      permission, the edit raised something else, or the member no longer qualified
      when the loop reached it. */
  datatype BulkError = NoPermission(member: MemberId) | EditError(member: MemberId, outcome: EditOutcome) | NoLongerEligible(member: MemberId)

  datatype Tally = Tally(succeeded: nat, errors: seq<BulkError>, calls: seq<EditCall>)

  /** How a bulk command ends: an exception while building the candidate list, an
      early return when there is no candidate, or the loop's report. */
  datatype BulkReport = Aborted | NothingToDo | Completed(attempted: nat, succeeded: nat, errors: seq<BulkError>, calls: seq<EditCall>)

  /** The loop body for one candidate: skip it with a note if it no longer qualifies,
      otherwise issue one edit and count it or record its failure. */
  function Step(guild: GuildId, m: Member, mute: bool, eligible: bool, outcome: EditOutcome): Tally
  {
    if !eligible then Tally(0, [NoLongerEligible(m.id)], [])
    else
      var calls := [EditCall(Key(guild, m.id), mute, outcome)];
      match outcome
      case EditOk => Tally(1, [], calls)
      case Forbidden => Tally(0, [NoPermission(m.id)], calls)
      case _ => Tally(0, [EditError(m.id, outcome)], calls)
  }

  function Then(a: Tally, b: Tally): Tally
  {
    Tally(a.succeeded + b.succeeded, a.errors + b.errors, a.calls + b.calls)
  }

  /** The loop over `cands`, in order; a candidate is still eligible when the loop
      reaches it exactly when it is in `eligible`, and an edit on member `id` ends as
      `outcome(id)`. Every candidate lands either in the counter or in the error list,
      and there are never more edits than candidates nor more successes than edits. */
  function Run(guild: GuildId, cands: seq<Member>, mute: bool, eligible: set<Member>,
               outcome: MemberId -> EditOutcome): (r: Tally)
    ensures r.succeeded + |r.errors| == |cands|
    ensures r.succeeded <= |r.calls| <= |cands|
    decreases |cands|
  {
    if cands == [] then Tally(0, [], [])
    else
      var last := cands[|cands| - 1];
      Then(Run(guild, cands[..|cands| - 1], mute, eligible, outcome),
           Step(guild, last, mute, last in eligible, outcome(last.id)))
  }

  /** The candidates that are still eligible, in loop order. */
  function Attempted(cands: seq<Member>, eligible: set<Member>): (r: seq<Member>)
    ensures forall m :: m in r <==> m in cands && m in eligible
    ensures |r| <= |cands|
    decreases |cands|
  {
    if cands == [] then []
    else
      var last := cands[|cands| - 1];
      Attempted(cands[..|cands| - 1], eligible) + (if last in eligible then [last] else [])
  }

  /** One edit call per member of `ms`, in order. */
  function Calls(guild: GuildId, ms: seq<Member>, mute: bool, outcome: MemberId -> EditOutcome): seq<EditCall>
  {
    seq(|ms|, i requires 0 <= i < |ms| => EditCall(Key(guild, ms[i].id), mute, outcome(ms[i].id)))
  }

  /** The number of calls that succeeded. */
  function CountOk(calls: seq<EditCall>): nat
  {
    if calls == [] then 0
    else CountOk(calls[..|calls| - 1]) + (if calls[|calls| - 1].outcome == EditOk then 1 else 0)
  }

  /** The members whose edit succeeded, as registry keys. */
  function Succeeded(calls: seq<EditCall>): set<Key>
  {
    if calls == [] then {}
    else Succeeded(calls[..|calls| - 1]) + (if calls[|calls| - 1].outcome == EditOk then {calls[|calls| - 1].key} else {})
  }

  lemma CallsAppend(guild: GuildId, ms: seq<Member>, m: Member, mute: bool, outcome: MemberId -> EditOutcome)
    ensures Calls(guild, ms + [m], mute, outcome) == Calls(guild, ms, mute, outcome) + [EditCall(Key(guild, m.id), mute, outcome(m.id))]
  {
  }

  lemma CountOkAppend(calls: seq<EditCall>, c: EditCall)
    ensures CountOk(calls + [c]) == CountOk(calls) + (if c.outcome == EditOk then 1 else 0)
    ensures Succeeded(calls + [c]) == Succeeded(calls) + (if c.outcome == EditOk then {c.key} else {})
  {
    assert (calls + [c])[..|calls|] == calls;
  }

  /** Appending a loop step's calls (none or one) adds that step's successes. */
  lemma SucceededThen(calls: seq<EditCall>, more: seq<EditCall>)
    requires |more| <= 1
    ensures Succeeded(calls + more) == Succeeded(calls) + Succeeded(more)
  {
    if more == [] {
      assert calls + more == calls;
    } else {
      CountOkAppend(calls, more[0]);
      assert more == [more[0]];
      assert more[..0] == [];
    }
  }

  /** One attempt per eligible candidate: the loop issues exactly one edit for each
      candidate that still qualifies, in order, and none for the others. */
  lemma {:induction false} RunCalls(guild: GuildId, cands: seq<Member>, mute: bool, eligible: set<Member>,
                                     outcome: MemberId -> EditOutcome)
    ensures Run(guild, cands, mute, eligible, outcome).calls == Calls(guild, Attempted(cands, eligible), mute, outcome)
    decreases |cands|
  {
    if cands != [] {
      var init, last := cands[..|cands| - 1], cands[|cands| - 1];
      RunCalls(guild, init, mute, eligible, outcome);
      if last in eligible {
        CallsAppend(guild, Attempted(init, eligible), last, mute, outcome);
      } else {
        assert Attempted(cands, eligible) == Attempted(init, eligible);
      }
    }
  }

  /** The success counter is the number of edits that succeeded. */
  lemma {:induction false} RunCountsSuccesses(guild: GuildId, cands: seq<Member>, mute: bool, eligible: set<Member>,
                                               outcome: MemberId -> EditOutcome)
    ensures var r := Run(guild, cands, mute, eligible, outcome); r.succeeded == CountOk(r.calls)
    decreases |cands|
  {
    if cands != [] {
      var init, last := cands[..|cands| - 1], cands[|cands| - 1];
      RunCountsSuccesses(guild, init, mute, eligible, outcome);
      var calls := Run(guild, init, mute, eligible, outcome).calls;
      if last in eligible {
        CountOkAppend(calls, EditCall(Key(guild, last.id), mute, outcome(last.id)));
      } else {
        assert calls + [] == calls;
      }
    }
  }

  /** When every candidate is eligible, every candidate is attempted. */
  lemma {:induction false} AttemptedAll(cands: seq<Member>, eligible: set<Member>)
    requires forall m | m in cands :: m in eligible
    ensures Attempted(cands, eligible) == cands
    decreases |cands|
  {
    if cands != [] {
      AttemptedAll(cands[..|cands| - 1], eligible);
      assert cands[..|cands| - 1] + [cands[|cands| - 1]] == cands;
    }
  }

  /** Extending the candidates processed so far by one runs one more loop step. */
  lemma RunStep(guild: GuildId, cands: seq<Member>, i: nat, mute: bool, eligible: set<Member>,
                outcome: MemberId -> EditOutcome)
    requires i < |cands|
    ensures Run(guild, cands[..i + 1], mute, eligible, outcome)
         == Then(Run(guild, cands[..i], mute, eligible, outcome),
                 Step(guild, cands[i], mute, cands[i] in eligible, outcome(cands[i].id)))
  {
    assert cands[..i + 1][..i] == cands[..i];
  }
}
