/**
 * What the traces of the simulator add up to: a run that waits for its bytes ends exactly when all of
 * them have arrived, the application reads until it finds nothing and writes until it may not, and no
 * byte is counted that is not on a line.
 */
module KcpEnding {
  import opened Helpers
  import opened DeliveryHeap
  import opened KcpTrace
  import opened KcpRuns
  import opened KcpReading
  import KcpCausality
  import R = KcpReader

  // ---------- Byte counts ----------

  lemma PrologueIsQuick(cfg: Config, c: SideConfig)
    ensures R.Quick(R.Prologue(cfg, c))
  {
  }

  /** All the bytes one side has to send: its writes and its extra sends. */
  function AllBytes(c: SideConfig): nat { c.writeBytes + R.Sum(c.extraSends) }

  /** An endpoint's counts are those of its lines, and what it has handed to Send and what it still plans is
    * all it has to send. */
  ghost predicate AddsUp(cfg: Config, e: End, c: SideConfig) {
    && e.sent == R.Delivered(e.ops) && e.got == R.Received(e.ops) && e.idleReads == R.FoundNothing(e.ops)
    && R.Tried(e.ops) + R.Sum(e.writes) == AllBytes(c)
  }

  lemma ReadTraceAddsUp(env: Env, w: World, s: Side)
    requires EndRead(env, w, s)
    ensures AddsUp(env.cfg, w.Of(s), env.cfg.SideOf(s))
  {
    var c := env.cfg.SideOf(s);
    PrologueIsQuick(env.cfg, c);
    R.PrologueBytes(env.cfg, c);
    R.PlanExactly(env.cfg, c, c.writeBytes, 0);
    R.ReadAddsUp(R.RulesOf(env.cfg, s, w.Of(s).mss), R.Opened(env.cfg, s), w.Of(s).ops);
  }

  /** So it is in every run. */
  lemma EveryTraceAddsUp(env: Env, turns: nat, s: Side)
    ensures AddsUp(env.cfg, After(env, turns).w.Of(s), env.cfg.SideOf(s))
  {
    EveryTraceIsRead(env, turns);
    assert EndRead(env, After(env, turns).w, s);
    ReadTraceAddsUp(env, After(env, turns).w, s);
  }

  lemma NothingPlanned(writes: seq<nat>)
    requires Positive(writes)
    ensures writes == [] <==> R.Sum(writes) == 0
  {
  }

  // ---------- When a run ends ----------

  /** No crafted packet is queued, each side has handed all its bytes to Send, each has received what the
    * other's successful Sends carried, and no engine has anything left to send. */
  ghost predicate AllArrived(cfg: Config, w: World) {
    && (forall d :: d in w.queue ==> d.origin.Sent?)
    && R.Tried(w.a.ops) == AllBytes(cfg.a) && R.Tried(w.b.ops) == AllBytes(cfg.b)
    && R.Received(w.b.ops) == R.Delivered(w.a.ops) && R.Received(w.a.ops) == R.Delivered(w.b.ops)
    && w.a.words.waiting == 0 && w.b.words.waiting == 0
  }

  lemma DoneExactly(env: Env, w: World)
    requires AllRead(env, w) && w.pendingRaw == KcpCausality.CraftedIn(w.queue) && !env.cfg.toDead
    ensures Done(env, w) <==> AllArrived(env.cfg, w)
  {
    KcpCausality.NoneCrafted(w.queue);
    assert EndRead(env, w, A) && EndRead(env, w, B);
    ReadTraceAddsUp(env, w, A);
    ReadTraceAddsUp(env, w, B);
    NothingPlanned(w.a.writes);
    NothingPlanned(w.b.writes);
  }

  /** The turn after any number of turns ends the run if and only if a's engine is dead, where that is waited
    * for, and otherwise if and only if everything has arrived. */
  lemma EndsExactly(env: Env, turns: nat)
    ensures var w := After(env, turns).w;
            Turn(env, w).Finished? <==> if env.cfg.toDead then w.a.words.dead else AllArrived(env.cfg, w)
  {
    KcpCausality.EveryRunIsSound(env, turns);
    EveryTraceIsRead(env, turns);
    if !env.cfg.toDead { DoneExactly(env, After(env, turns).w); }
  }

  lemma FinishedIsComplete(env: Env, turns: nat)
    requires After(env, turns).Finished? && !env.cfg.toDead
    ensures AllArrived(env.cfg, After(env, turns).w)
  {
    KcpCausality.EveryRunIsSound(env, turns);
    KcpCausality.EveryRunSettles(env, turns);
    EveryTraceIsRead(env, turns);
    DoneExactly(env, After(env, turns).w);
  }

  /** A finished run in which every Send succeeded has brought each side all the bytes of the other. */
  lemma FinishedDelivers(env: Env, turns: nat, s: Side)
    requires After(env, turns).Finished? && !env.cfg.toDead
    requires forall op :: op in After(env, turns).w.Of(s).ops && op.head.Send? ==> op.ret == 0
    ensures R.Received(After(env, turns).w.Of(s.Peer()).ops) == AllBytes(env.cfg.SideOf(s))
  {
    FinishedIsComplete(env, turns);
    R.AllDelivered(After(env, turns).w.Of(s).ops);
  }

  // ---------- The writer stops only where it must ----------

  predicate MayWrite(env: Env, w: World, s: Side) {
    w.now >= env.cfg.SideOf(s).writeFrom && R.GateOpen(R.RulesOf(env.cfg, s, w.Of(s).mss), ReadingOf(w.Of(s), R.Ready))
  }

  /** The last thing asked was the window, and it was full. */
  predicate WindowFull(ops: seq<Op>) {
    ops != [] && ops[|ops| - 1].head.WaitSnd? && ops[|ops| - 1].ret >= ops[|ops| - 1].words.sndWnd
  }

  predicate AtRest(env: Env, w: World, s: Side) { MayWrite(env, w, s) ==> WindowFull(w.Of(s).ops) }

  lemma {:induction false} WriteComesToRest(env: Env, w: World, s: Side)
    ensures AtRest(env, Write(env, w, s), s)
    decreases |w.Of(s).writes|
  {
    GateIsRead(env, w, s, w.Of(s).mss, R.Ready);
    if CanWrite(env, w, s) {
      var asked := Call(env, w, s, Head.WaitSnd);
      if Ret(env, w) < asked.Of(s).words.sndWnd { WriteComesToRest(env, OneWrite(env, asked, s), s); }
    }
  }

  /** After its delivery or its timer an endpoint has no message that it may send, unless its window is full. */
  lemma EventComesToRest(env: Env, w: World)
    ensures if w.queue != [] && w.queue[0].at <= w.now then AtRest(env, Event(env, w), w.queue[0].to)
            else if w.a.nextTimer <= w.now then AtRest(env, Event(env, w), A)
            else w.b.nextTimer <= w.now ==> AtRest(env, Event(env, w), B)
  {
    if DeliveryDue(w) {
      WriteComesToRest(env, KcpTrace.Read(env, InputDone(env, w), w.queue[0].to), w.queue[0].to);
    } else if w.a.nextTimer <= w.now {
      WriteComesToRest(env, if env.cfg.useUpdate then UpdateTimer(env, w, A) else FlushTimer(env, w, A), A);
    } else if w.b.nextTimer <= w.now {
      WriteComesToRest(env, if env.cfg.useUpdate then UpdateTimer(env, w, B) else FlushTimer(env, w, B), B);
    }
  }

  // ---------- The reader reads until it finds nothing ----------

  lemma {:induction false} ReadFromLooks(env: Env, w: World, s: Side, burst: Burst, i: nat)
    ensures ReadFrom(env, w, s, burst, i).Of(s).idleReads == w.Of(s).idleReads + 1
    decreases |burst.sizes| - i
  {
    var peeked := CallAs(env, w, s, Head.Peek, burst.Peek(i));
    if i < |burst.sizes| { ReadFromLooks(env, ReadOne(env, peeked, s, burst.sizes[i]), s, burst, i + 1); }
  }

  /** A reader that is not stalled by now finds nothing once, in the end; a stalled one does not look. */
  lemma ReadLooks(env: Env, w: World, s: Side)
    ensures var c := env.cfg.SideOf(s);
            var stalled := c.stallFrom < c.stallTo && c.stallFrom <= w.now && w.now < c.stallTo;
            && KcpTrace.Read(env, w, s).Of(s).idleReads == w.Of(s).idleReads + (if stalled then 0 else 1)
            && (stalled ==> KcpTrace.Read(env, w, s) == w)
  {
    ReadFromLooks(env, NextBurst(w), s, env.burst(w.bursts), 0);
  }

  lemma SendKeepsIdle(env: Env, w: World, s: Side, n: nat)
    ensures SendMessage(env, w, s, n).Of(s).idleReads == w.Of(s).idleReads
  {
    SplitKeeps(KcpTrace.Sending(env, s), w.Of(s).mss, (u: World) => u.Of(s).idleReads == w.Of(s).idleReads, w, n);
  }

  lemma {:induction false} WriteKeepsIdle(env: Env, w: World, s: Side)
    ensures Write(env, w, s).Of(s).idleReads == w.Of(s).idleReads
    decreases |w.Of(s).writes|
  {
    if CanWrite(env, w, s) {
      var asked := Call(env, w, s, Head.WaitSnd);
      if Ret(env, w) < asked.Of(s).words.sndWnd {
        SendKeepsIdle(env, TakeWrite(asked, s), s, asked.Of(s).writes[0]);
        WriteKeepsIdle(env, OneWrite(env, asked, s), s);
      }
    }
  }

  /** Every delivery is followed by reading until nothing is found, unless the reader is stalled at the time
    * the input is over. */
  lemma DeliveryIsReadOut(env: Env, w: World)
    requires w.queue != [] && w.queue[0].at <= w.now
    ensures var s, now := w.queue[0].to, w.now + env.reply(w.calls).clocks * env.cfg.step;
            var c := env.cfg.SideOf(s);
            Event(env, w).Of(s).idleReads == w.Of(s).idleReads
              + if c.stallFrom < c.stallTo && c.stallFrom <= now && now < c.stallTo then 0 else 1
  {
    var s, input := w.queue[0].to, InputDone(env, w);
    assert input.now == w.now + env.reply(w.calls).clocks * env.cfg.step;
    assert input.Of(s).idleReads == w.Of(s).idleReads;
    ReadLooks(env, input, s);
    WriteKeepsIdle(env, KcpTrace.Read(env, input, s), s);
  }
}
