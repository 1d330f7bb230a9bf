/**
 * The loading indicator: six progress messages revealed one per timer tick.
 * The timer itself is abstracted into ticks; `Step` and `Run` describe the
 * state as a value, and `Sequencer` is the component's two pieces of state,
 * advanced in place by `Tick`.
 */
module LoadingState {
  const LoadingMessages: seq<string> := [
    "Analyzing your trip requirements...",
    "Searching real flights with Amadeus API...",
    "Finding available hotels...",
    "Generating personalized itinerary...",
    "Optimizing day plans...",
    "Finalizing your perfect trip..."
  ]

  /** The counter of revealed messages and the list on screen. */
  datatype State = State(currentMessage: nat, displayedMessages: seq<string>)

  const Initial := State(0, [])

  /** What every reachable state satisfies: the list on screen is the first `currentMessage` messages. */
  predicate Consistent(s: State)
  {
    s.currentMessage <= |LoadingMessages| && s.displayedMessages == LoadingMessages[..s.currentMessage]
  }

  /** One tick: while messages remain, append the next one and advance the counter; then nothing. */
  function Step(s: State): (t: State)
    ensures s.currentMessage < |LoadingMessages| ==> t.currentMessage == s.currentMessage + 1
    ensures s.currentMessage < |LoadingMessages| ==> t.displayedMessages == s.displayedMessages + [LoadingMessages[s.currentMessage]]
    ensures s.currentMessage >= |LoadingMessages| ==> t == s
    ensures Consistent(s) ==> Consistent(t)
  {
    if s.currentMessage < |LoadingMessages|
    then State(s.currentMessage + 1, s.displayedMessages + [LoadingMessages[s.currentMessage]])
    else s
  }

  /** How many messages are on screen after `k` ticks: k, until all six are. */
  function RevealedAfter(k: nat): nat
  {
    if k < |LoadingMessages| then k else |LoadingMessages|
  }

  /** The state after `k` ticks from the initial state. */
  function Run(k: nat): State
  {
    if k == 0 then Initial else Step(Run(k - 1))
  }

  /** After k ticks exactly the first min(k, 6) messages are on screen, in order. */
  lemma {:induction false} RunReveals(k: nat)
    ensures Run(k).currentMessage == RevealedAfter(k)
    ensures Run(k).displayedMessages == LoadingMessages[..RevealedAfter(k)]
  {
    if k > 0 {
      RunReveals(k - 1);
      if k - 1 < |LoadingMessages| {
        assert LoadingMessages[..k - 1] + [LoadingMessages[k - 1]] == LoadingMessages[..k];
      }
    }
  }

  /** Once all six are shown, further ticks change nothing. */
  lemma TerminalIsStable(k: nat)
    requires k >= |LoadingMessages|
    ensures Run(k + 1) == Run(k)
    ensures Run(k) == State(|LoadingMessages|, LoadingMessages)
  {
    RunReveals(k);
    assert LoadingMessages[..|LoadingMessages|] == LoadingMessages;
  }

  /** No message is ever shown twice. */
  lemma NoDuplicates(s: State)
    requires Consistent(s)
    ensures forall i, j :: 0 <= i < j < |s.displayedMessages| ==> s.displayedMessages[i] != s.displayedMessages[j]
  {
    forall i, j | 0 <= i < j < |s.displayedMessages|
      ensures s.displayedMessages[i] != s.displayedMessages[j]
    {
      assert s.displayedMessages[i] == LoadingMessages[i];
      assert s.displayedMessages[j] == LoadingMessages[j];
      assert |LoadingMessages[i]| != |LoadingMessages[j]|;
    }
  }

  /** The timeline of the component: empty at start, one message after one tick, all six after six, still six later. */
  lemma Timeline()
    ensures Run(0).displayedMessages == []
    ensures Run(1).displayedMessages == [LoadingMessages[0]]
    ensures Run(6).displayedMessages == LoadingMessages
    ensures Run(13).displayedMessages == LoadingMessages
  {
    RunReveals(1);
    RunReveals(6);
    RunReveals(13);
    assert LoadingMessages[..1] == [LoadingMessages[0]];
    assert LoadingMessages[..6] == LoadingMessages;
  }

  /** The component's state: `currentMessage` and `displayedMessages`. */
  class Sequencer {
    var currentMessage: nat
    var displayedMessages: seq<string>

    function Current(): State
      reads this
    {
      State(currentMessage, displayedMessages)
    }

    predicate Valid()
      reads this
    {
      Consistent(Current())
    }

    /** Mounting: counter 0, nothing shown. */
    constructor ()
      ensures Valid()
      ensures currentMessage == 0 && displayedMessages == []
    {
      currentMessage := 0;
      displayedMessages := [];
    }

    /** One firing of the interval callback. */
    method Tick()
      requires Valid()
      modifies this
      ensures Valid()
      ensures Current() == Step(old(Current()))
      ensures old(currentMessage) < |LoadingMessages| ==>
                currentMessage == old(currentMessage) + 1 &&
                displayedMessages == old(displayedMessages) + [LoadingMessages[old(currentMessage)]]
      ensures old(currentMessage) == |LoadingMessages| ==>
                currentMessage == old(currentMessage) && displayedMessages == old(displayedMessages)
    {
      if currentMessage < |LoadingMessages| {
        displayedMessages := displayedMessages + [LoadingMessages[currentMessage]];
        currentMessage := currentMessage + 1;
      }
    }
  }
}
