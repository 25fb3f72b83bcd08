/** Two short runs in which an envelope is delivered twice. */
module ReplayRuns {
  import opened Wrappers
  import opened SymbolicCrypto
  import opened Ratchet
  import opened Protocol
  import opened RunInvariant
  import opened RunTheorems
  import opened X3dh
  import opened Replays

  const BUNDLE := PreKeyBundle(1, 9, 2, SignedBy(9, 2), None)

  const START := Initiated(KeyPair(0), KeyPair(1), BUNDLE, Some(KeyPair(2)), map[], false, 4)

  lemma StartInRun()
    ensures InRun(START)
  {
    InitiatedInRun(KeyPair(0), KeyPair(1), BUNDLE, Some(KeyPair(2)), map[], false, 4);
  }

  /** The header of the envelope at position i, and whether it came from Alice. */
  predicate Header(w: World, i: nat, from: Party, ephemeral: PublicKey, number: int, previous: int) {
    && i < |w.sent| && w.sent[i].from == from
    && w.sent[i].message.ephemeral == ephemeral && w.sent[i].message.sequenceNumber == number
    && w.sent[i].message.previousChainLength == previous && w.sent[i].message.oneTimePreKeyId == None
  }

  // ---- On the live chain ---------------------------------------------------------------------------

  function LiveSent(): (w: World)
    ensures |w.sent| == 2 && Header(w, 0, Alice, 4, 0, 0) && Header(w, 1, Alice, 4, 1, 0)
    ensures w.bob.None? && w.delivered == {}
  {
    AfterSending(AfterSending(START, Alice, "a", None, 0), Alice, "b", None, 1)
  }

  function LiveRun(): (w: World)
    ensures w.sent == LiveSent().sent && w.delivered == {0} && w.bob.Some?
    ensures w.bob.value.remoteDh == Some(4) && w.bob.value.receiveNumber == 1
  {
    HandOver(LiveSent(), 0, LiveSent().sent[0].message).world
  }

  lemma LiveRunInRun()
    ensures InRun(LiveRun())
  {
    StartInRun();
    StepKeeps(START, Send(Alice, "a", None, 0));
    StepKeeps(AfterSending(START, Alice, "a", None, 0), Send(Alice, "b", None, 1));
    StepKeeps(LiveSent(), Deliver(0));
  }

  predicate FirstRead(w: World) {
    && |w.sent| == 2 && Header(w, 0, Alice, 4, 0, 0) && Header(w, 1, Alice, 4, 1, 0)
    && w.delivered == {0} && w.bob.Some? && w.bob.value.remoteDh == Some(4) && w.bob.value.receiveNumber == 1
  }

  lemma SecondIsLostWhen(w: World)
    requires InRun(w) && FirstRead(w)
    ensures HandOver(w, 1, w.sent[1].message).outcome == Ok(w.sent[1].text)
    ensures HandOver(w, 0, w.sent[0].message).outcome.Err?
    ensures HandOver(HandOver(w, 0, w.sent[0].message).world, 1, w.sent[1].message).outcome.Err?
  {
    Delivers(w, 1);
    ReplayNeverOpens(w, 0);
    LiveReplayLosesTheNext(w, 0, 1);
  }

  /** Two messages; the first is delivered twice, and the second, which would have opened, is lost. */
  lemma SecondIsLost()
    ensures var w := LiveRun();
            && HandOver(w, 1, w.sent[1].message).outcome == Ok(w.sent[1].text)
            && HandOver(w, 0, w.sent[0].message).outcome.Err?
            && HandOver(HandOver(w, 0, w.sent[0].message).world, 1, w.sent[1].message).outcome.Err?
  {
    LiveRunInRun();
    SecondIsLostWhen(LiveRun());
  }

  // ---- On a finished chain -------------------------------------------------------------------------

  function Asked(): (w: World)
    ensures |w.sent| == 1 && Header(w, 0, Alice, 4, 0, 0) && w.bob.None? && w.delivered == {}
    ensures w.alice.localDh == KeyPair(4) && w.alice.remoteDh == Some(2) && w.alice.receiveChain.None?
            && w.alice.skipped == map[]
    ensures w.alice.sendNumber == 1 && w.alice.oneTimePreKeyId.None? && w.nextPair == 5
  {
    AfterSending(START, Alice, "a", None, 0)
  }

  function Heard(): (w: World)
    ensures w.sent == Asked().sent && w.alice == Asked().alice && w.delivered == {0} && w.nextPair == 7
    ensures w.bob.Some? && w.bob.value.localDh == KeyPair(5) && w.bob.value.remoteDh == Some(4)
            && w.bob.value.sendChain.None?
    ensures w.bob.value.receiveNumber == 1 && w.bob.value.sendNumber == 0 && w.bob.value.skipped == map[]
    ensures w.bob.value.previousChainLength == 0
  {
    HandOver(Asked(), 0, Asked().sent[0].message).world
  }

  function Answered(): (w: World)
    ensures |w.sent| == 2 && w.sent[..1] == Heard().sent && Header(w, 1, Bob, 5, 0, 0)
    ensures w.alice == Asked().alice && w.delivered == {0} && w.nextPair == 7 && w.bob.Some?
    ensures w.bob.value.remoteDh == Some(4) && w.bob.value.receiveNumber == 1 && w.bob.value.skipped == map[]
  {
    AfterSending(Heard(), Bob, "b", None, 1)
  }

  function Read(): (w: World)
    ensures w.sent == Answered().sent && w.bob == Answered().bob && w.delivered == {0, 1} && w.nextPair == 8
    ensures w.alice.localDh == KeyPair(7) && w.alice.sendNumber == 0 && w.alice.previousChainLength == 1
            && w.alice.sendChain.Some?
    ensures w.alice.oneTimePreKeyId.None?
  {
    HandOver(Answered(), 1, Answered().sent[1].message).world
  }

  function AskedAgain(): (w: World)
    ensures |w.sent| == 3 && w.sent[..2] == Read().sent && Header(w, 2, Alice, 7, 0, 1)
    ensures w.bob == Answered().bob && w.delivered == {0, 1} && w.nextPair == 8
  {
    AliceSent(Read(), "c", 2);
    AfterSending(Read(), Alice, "c", None, 2)
  }

  lemma AliceSent(w: World, text: string, nonce: nat)
    requires w.alice.sendChain.Some? && w.alice.sendNumber == 0 && w.alice.oneTimePreKeyId.None?
    ensures var v := AfterSending(w, Alice, text, None, nonce);
            && |v.sent| == |w.sent| + 1 && v.sent[..|w.sent|] == w.sent
            && Header(v, |w.sent|, Alice, w.alice.localDh.publicKey, 0, w.alice.previousChainLength)
            && v.bob == w.bob && v.delivered == w.delivered && v.nextPair == w.nextPair
  {
  }

  function FinishedRun(): (w: World)
    ensures w.sent == AskedAgain().sent && w.delivered == {0, 1, 2} && w.bob.Some?
    ensures w.bob.value.remoteDh == Some(7) && w.bob.value.skipped == map[]
  {
    HandOver(AskedAgain(), 2, AskedAgain().sent[2].message).world
  }

  lemma FinishedRunInRun()
    ensures InRun(FinishedRun())
  {
    StartInRun();
    StepKeeps(START, Send(Alice, "a", None, 0));
    StepKeeps(Asked(), Deliver(0));
    StepKeeps(Heard(), Send(Bob, "b", None, 1));
    StepKeeps(Answered(), Deliver(1));
    StepKeeps(Read(), Send(Alice, "c", None, 2));
    StepKeeps(AskedAgain(), Deliver(2));
  }

  /** What makes a replay of the first envelope fatal there. */
  predicate AskedTwice(w: World) {
    && |w.sent| == 3 && w.sent[0].from == Alice && w.sent[1].from == Bob && w.sent[2].from == Alice
    && 0 in w.delivered && w.bob.Some? && w.bob.value.skipped == map[]
    && w.bob.value.remoteDh != Some(w.sent[0].message.ephemeral)
    && w.sent[0].message.sequenceNumber == 0 && w.sent[0].message.previousChainLength == 0
  }

  lemma FinishedRunAskedTwice()
    ensures AskedTwice(FinishedRun())
  {
    var w := FinishedRun();
    assert w.sent[0] == Read().sent[0] == Answered().sent[..1][0] == Heard().sent[0];
    assert w.sent[1] == AskedAgain().sent[..2][1];
  }

  lemma OverWhenAskedTwice(w: World, steps: seq<Step>, j: nat)
    requires InRun(w) && AskedTwice(w)
    ensures var v := Everything(HandOver(w, 0, w.sent[0].message).world, steps);
            j < |v.sent| && j != 1 ==> HandOver(v, j, v.sent[j].message).outcome.Err?
  {
    ReadyForReplay(w);
    FinishedReplayIsFatal(w, 0, steps, j);
    SentStays(w, 0, steps);
    OnlyTheAnswer(w, Everything(HandOver(w, 0, w.sent[0].message).world, steps), j);
  }

  lemma OnlyTheAnswer(w: World, v: World, j: nat)
    requires AskedTwice(w) && StillGood(w, 0) == map[] && w.sent <= v.sent
    requires j < |v.sent| && HandOver(v, j, v.sent[j].message).outcome.Ok? ==>
               if v.sent[j].from == Bob then j < |w.sent| else HeaderId(v.sent[j].message) in StillGood(w, 0)
    ensures j < |v.sent| && j != 1 ==> HandOver(v, j, v.sent[j].message).outcome.Err?
  {
  }

  lemma ReadyForReplay(w: World)
    requires AskedTwice(w)
    ensures StillGood(w, 0) == map[]
    ensures NeedsRatchet(w.bob.value, w.sent[0].message) && !BeyondSkipLimit(w.bob.value, w.sent[0].message)
  {
  }

  lemma SentStays(w: World, i: nat, steps: seq<Step>)
    requires i < |w.sent|
    ensures w.sent <= Everything(HandOver(w, i, w.sent[i].message).world, steps).sent
  {
    SentGrows(HandOver(w, i, w.sent[i].message).world, steps);
  }

  /**
    A question, an answer and a second question, all delivered; then the first question again. Nothing
    opens any more, under any further steps, but the answer that was sent before.
   */
  lemma ConversationIsOver(steps: seq<Step>, j: nat)
    ensures var w := FinishedRun();
            var v := Everything(HandOver(w, 0, w.sent[0].message).world, steps);
            j < |v.sent| && j != 1 ==> HandOver(v, j, v.sent[j].message).outcome.Err?
  {
    FinishedRunInRun();
    FinishedRunAskedTwice();
    OverWhenAskedTwice(FinishedRun(), steps, j);
  }

  lemma {:induction false} SentGrows(w: World, steps: seq<Step>)
    ensures w.sent <= Everything(w, steps).sent
    decreases |steps|
  {
    if steps != [] {
      SentGrows(Anything(w, steps[0]), steps[1..]);
    }
  }
}
