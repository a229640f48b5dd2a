/**
 The loop that tells the listeners of a client about a change of the connection state
 (`#notifyConnectionStateListeners` in packages/client/src/client.ts). A listener may call the client,
 which then tells all listeners about the next change before the loop goes on.
 */
module ListenerOrder {
  import opened Prelude
  import opened ClientProtocol
  import opened ClientSafety

  /** One notification; `reactions[k]` is what listener `k` does while it is told. */
  datatype Call = Call(note: Note, reactions: seq<Reaction>)

  /** The notifications that some code causes, one after the other. */
  datatype Reaction = Reaction(calls: seq<Call>)

  datatype Telling = Telling(listener: nat, note: Note)

  /** Every notification goes to the same listeners. */
  predicate AllFit(r: Reaction, i: nat, listeners: nat)
    decreases r, |r.calls| - i
  {
    i < |r.calls| ==> Fits(r.calls[i], 0, listeners) && AllFit(r, i + 1, listeners)
  }

  predicate Fits(call: Call, k: nat, listeners: nat)
    decreases call, |call.reactions| - k
  {
    |call.reactions| == listeners && (k < listeners ==> AllFit(call.reactions[k], 0, listeners) && Fits(call, k + 1, listeners))
  }

  /** Who is told what, in the order of time: the loop from listener `k` on. */
  function Told(call: Call, k: nat): seq<Telling>
    decreases call, |call.reactions| - k
  {
    if k >= |call.reactions| then []
    else [Telling(k, call.note)] + AllTold(call.reactions[k], 0) + Told(call, k + 1)
  }

  function AllTold(r: Reaction, i: nat): seq<Telling>
    decreases r, |r.calls| - i
  {
    if i >= |r.calls| then [] else Told(r.calls[i], 0) + AllTold(r, i + 1)
  }

  /** The notifications in the order in which they begin. */
  function Begun(call: Call, k: nat): seq<Note>
    decreases call, |call.reactions| - k
  {
    if k >= |call.reactions| then [] else AllBegun(call.reactions[k], 0) + Begun(call, k + 1)
  }

  function AllBegun(r: Reaction, i: nat): seq<Note>
    decreases r, |r.calls| - i
  {
    if i >= |r.calls| then [] else [r.calls[i].note] + Begun(r.calls[i], 0) + AllBegun(r, i + 1)
  }

  /** What one listener hears. */
  function HeardBy(tellings: seq<Telling>, listener: nat): seq<Note> {
    if tellings == [] then []
    else (if tellings[0].listener == listener then [tellings[0].note] else []) + HeardBy(tellings[1..], listener)
  }

  /** No listener before the given one causes a notification. */
  predicate NoEarlierReacts(r: Reaction, i: nat, listener: nat)
    decreases r, |r.calls| - i
  {
    i < |r.calls| ==> QuietFrom(r.calls[i], 0, listener) && NoEarlierReacts(r, i + 1, listener)
  }

  predicate QuietFrom(call: Call, k: nat, listener: nat)
    decreases call, |call.reactions| - k
  {
    k < |call.reactions| ==>
      && (if k < listener then call.reactions[k].calls == [] else NoEarlierReacts(call.reactions[k], 0, listener))
      && QuietFrom(call, k + 1, listener)
  }

  // ---------- sequences ----------

  predicate Distinct(notes: seq<Note>) {
    forall i, j :: 0 <= i < j < |notes| ==> notes[i] != notes[j]
  }

  lemma DistinctParts(first: seq<Note>, second: seq<Note>)
    requires Distinct(first + second)
    ensures Distinct(first) && Distinct(second)
    ensures forall i, j :: 0 <= i < |first| && 0 <= j < |second| ==> first[i] != second[j]
  {
    var all := first + second;
    assert forall i :: 0 <= i < |first| ==> all[i] == first[i];
    assert forall i :: 0 <= i < |second| ==> all[|first| + i] == second[i];
  }

  lemma {:induction false} HeardInTwoParts(first: seq<Telling>, second: seq<Telling>, listener: nat)
    ensures HeardBy(first + second, listener) == HeardBy(first, listener) + HeardBy(second, listener)
    decreases |first|
  {
    if first == [] {
      assert first + second == second;
    } else {
      assert (first + second)[1..] == first[1..] + second;
      HeardInTwoParts(first[1..], second, listener);
      Associates(if first[0].listener == listener then [first[0].note] else [], HeardBy(first[1..], listener), HeardBy(second, listener));
    }
  }

  /** What a listener hears of a loop from `k` on. */
  function Heard(call: Call, k: nat, listener: nat): seq<Note> {
    HeardBy(Told(call, k), listener)
  }

  function AllHeard(r: Reaction, i: nat, listener: nat): seq<Note> {
    HeardBy(AllTold(r, i), listener)
  }

  function Own(call: Call, k: nat, listener: nat): seq<Note> {
    if k == listener then [call.note] else []
  }

  lemma HeardStep(call: Call, k: nat, listener: nat)
    requires k < |call.reactions|
    ensures Heard(call, k, listener) ==
            Own(call, k, listener) + AllHeard(call.reactions[k], 0, listener) + Heard(call, k + 1, listener)
  {
    var first := [Telling(k, call.note)];
    HeardInTwoParts(first + AllTold(call.reactions[k], 0), Told(call, k + 1), listener);
    HeardInTwoParts(first, AllTold(call.reactions[k], 0), listener);
    assert first[1..] == [];
  }

  lemma AllHeardStep(r: Reaction, i: nat, listener: nat)
    requires i < |r.calls|
    ensures AllHeard(r, i, listener) == Heard(r.calls[i], 0, listener) + AllHeard(r, i + 1, listener)
  {
    HeardInTwoParts(Told(r.calls[i], 0), AllTold(r, i + 1), listener);
  }

  function CountOf(notes: seq<Note>, note: Note): nat {
    if notes == [] then 0 else CountOf(notes[1..], note) + if notes[0] == note then 1 else 0
  }

  lemma {:induction false} CountInTwoParts(first: seq<Note>, second: seq<Note>, note: Note)
    ensures CountOf(first + second, note) == CountOf(first, note) + CountOf(second, note)
    decreases |first|
  {
    if first == [] {
      assert first + second == second;
    } else {
      assert (first + second)[0] == first[0] && (first + second)[1..] == first[1..] + second;
      CountInTwoParts(first[1..], second, note);
    }
  }

  lemma {:induction false} CountedIsThere(notes: seq<Note>, note: Note) returns (i: nat)
    requires CountOf(notes, note) > 0
    ensures i < |notes| && notes[i] == note
    decreases |notes|
  {
    if notes[0] == note {
      i := 0;
    } else {
      var later := CountedIsThere(notes[1..], note);
      i := later + 1;
    }
  }

  lemma Splits(a: seq<Note>, b: seq<Note>, c: seq<Note>, d: seq<Note>)
    requires |a| == |c|
    ensures a + b == c + d <==> a == c && b == d
  {
    if a + b == c + d {
      assert a == (a + b)[..|a|] && c == (c + d)[..|c|];
      assert b == (a + b)[|a|..] && d == (c + d)[|c|..];
    }
  }

  // ---------- nothing is lost ----------

  /** A listener is told the note of a loop if its turn is still to come. */
  function OwnFrom(k: nat, listener: nat): nat {
    if k <= listener then 1 else 0
  }

  /** Every listener hears every notification once. */
  lemma {:induction false} HeardOnce(call: Call, k: nat, listener: nat, listeners: nat, note: Note)
    requires Fits(call, k, listeners) && k <= listeners && listener < listeners
    ensures CountOf(Heard(call, k, listener), note) ==
            (if note == call.note then OwnFrom(k, listener) else 0) + CountOf(Begun(call, k), note)
    decreases call, |call.reactions| - k
  {
    if k < listeners {
      var own, all := Own(call, k, listener), AllHeard(call.reactions[k], 0, listener);
      HeardStep(call, k, listener);
      AllHeardOnce(call.reactions[k], 0, listener, listeners, note);
      HeardOnce(call, k + 1, listener, listeners, note);
      CountInTwoParts(own + all, Heard(call, k + 1, listener), note);
      CountInTwoParts(own, all, note);
      CountInTwoParts(AllBegun(call.reactions[k], 0), Begun(call, k + 1), note);
      CountOwn(call, k, listener, note);
    }
  }

  lemma CountOwn(call: Call, k: nat, listener: nat, note: Note)
    ensures CountOf(Own(call, k, listener), note) == if k == listener && note == call.note then 1 else 0
    ensures CountOf([call.note], note) == if note == call.note then 1 else 0
  {
    assert [call.note][1..] == [];
  }

  lemma {:induction false} AllHeardOnce(r: Reaction, i: nat, listener: nat, listeners: nat, note: Note)
    requires AllFit(r, i, listeners) && listener < listeners
    ensures CountOf(AllHeard(r, i, listener), note) == CountOf(AllBegun(r, i), note)
    decreases r, |r.calls| - i
  {
    if i < |r.calls| {
      var call := r.calls[i];
      AllHeardStep(r, i, listener);
      HeardOnce(call, 0, listener, listeners, note);
      AllHeardOnce(r, i + 1, listener, listeners, note);
      CountInTwoParts(Heard(call, 0, listener), AllHeard(r, i + 1, listener), note);
      CountInTwoParts([call.note] + Begun(call, 0), AllBegun(r, i + 1), note);
      CountInTwoParts([call.note], Begun(call, 0), note);
      CountOwn(call, 0, listener, note);
    }
  }

  lemma {:induction false} HeardLength(call: Call, k: nat, listener: nat, listeners: nat)
    requires Fits(call, k, listeners) && k <= listeners && listener < listeners
    ensures |Heard(call, k, listener)| == OwnFrom(k, listener) + |Begun(call, k)|
    decreases call, |call.reactions| - k
  {
    if k < listeners {
      HeardStep(call, k, listener);
      AllHeardLength(call.reactions[k], 0, listener, listeners);
      HeardLength(call, k + 1, listener, listeners);
    }
  }

  lemma {:induction false} AllHeardLength(r: Reaction, i: nat, listener: nat, listeners: nat)
    requires AllFit(r, i, listeners) && listener < listeners
    ensures |AllHeard(r, i, listener)| == |AllBegun(r, i)|
    decreases r, |r.calls| - i
  {
    if i < |r.calls| {
      AllHeardStep(r, i, listener);
      HeardLength(r.calls[i], 0, listener, listeners);
      AllHeardLength(r, i + 1, listener, listeners);
    }
  }

  // ---------- the order ----------

  /** The reactions of later listeners are heard where they begin, if they are so inside. */
  lemma {:induction false} LaterOrder(call: Call, k: nat, listener: nat, listeners: nat)
    requires Fits(call, k, listeners) && listener < k <= listeners && Distinct(Begun(call, k))
    ensures Heard(call, k, listener) == Begun(call, k) <==> QuietFrom(call, k, listener)
    decreases call, |call.reactions| - k
  {
    if k < listeners {
      var reaction := call.reactions[k];
      DistinctParts(AllBegun(reaction, 0), Begun(call, k + 1));
      HeardStep(call, k, listener);
      assert [] + AllHeard(reaction, 0, listener) == AllHeard(reaction, 0, listener);
      AllHeardLength(reaction, 0, listener, listeners);
      Splits(AllHeard(reaction, 0, listener), Heard(call, k + 1, listener), AllBegun(reaction, 0), Begun(call, k + 1));
      OrderOfReactions(reaction, 0, listener, listeners);
      LaterOrder(call, k + 1, listener, listeners);
    }
  }

  /** The listener itself hears the note first, then its own reaction. */
  lemma {:induction false} OwnOrder(call: Call, listener: nat, listeners: nat)
    requires Fits(call, listener, listeners) && listener < listeners && Distinct(Begun(call, listener))
    ensures Heard(call, listener, listener) == [call.note] + Begun(call, listener) <==> QuietFrom(call, listener, listener)
    decreases call, |call.reactions| - listener, 0
  {
    var reaction := call.reactions[listener];
    var all, heard := AllHeard(reaction, 0, listener), Heard(call, listener + 1, listener);
    DistinctParts(AllBegun(reaction, 0), Begun(call, listener + 1));
    HeardStep(call, listener, listener);
    AllHeardLength(reaction, 0, listener, listeners);
    Associates([call.note], all, heard);
    Splits([call.note], all + heard, [call.note], Begun(call, listener));
    Splits(all, heard, AllBegun(reaction, 0), Begun(call, listener + 1));
    OrderOfReactions(reaction, 0, listener, listeners);
    LaterOrder(call, listener + 1, listener, listeners);
  }

  /** The reaction of an earlier listener is heard before the note itself. */
  lemma ReactionComesFirst(call: Call, k: nat, listener: nat, listeners: nat)
    requires Fits(call, k, listeners) && k < listener < listeners && call.reactions[k].calls != []
    requires Distinct([call.note] + Begun(call, k))
    ensures Heard(call, k, listener) != [call.note] + Begun(call, k)
  {
    var reaction := call.reactions[k];
    HeardStep(call, k, listener);
    DistinctParts([call.note], Begun(call, k));
    AllHeardLength(reaction, 0, listener, listeners);
    var first := AllHeard(reaction, 0, listener)[0];
    AllHeardOnce(reaction, 0, listener, listeners, first);
    var i := CountedIsThere(AllBegun(reaction, 0), first);
    assert Begun(call, k)[i] == first;
    assert Heard(call, k, listener)[0] == first;
    assert [call.note][0] != Begun(call, k)[i];
  }

  lemma {:induction false} EarlierOrder(call: Call, k: nat, listener: nat, listeners: nat)
    requires Fits(call, k, listeners) && k <= listener < listeners && Distinct([call.note] + Begun(call, k))
    ensures Heard(call, k, listener) == [call.note] + Begun(call, k) <==> QuietFrom(call, k, listener)
    decreases call, |call.reactions| - k, 1
  {
    DistinctParts([call.note], Begun(call, k));
    if k == listener {
      OwnOrder(call, listener, listeners);
    } else if call.reactions[k].calls == [] {
      HeardStep(call, k, listener);
      assert Begun(call, k) == [] + Begun(call, k + 1) == Begun(call, k + 1);
      assert Heard(call, k, listener) == [] + [] + Heard(call, k + 1, listener) == Heard(call, k + 1, listener);
      EarlierOrder(call, k + 1, listener, listeners);
    } else {
      ReactionComesFirst(call, k, listener, listeners);
    }
  }

  /** A listener hears distinct notifications in the order in which they begin exactly if no listener
      before it causes one while it is told. */
  lemma {:induction false} OrderOfReactions(r: Reaction, i: nat, listener: nat, listeners: nat)
    requires AllFit(r, i, listeners) && listener < listeners && Distinct(AllBegun(r, i))
    ensures AllHeard(r, i, listener) == AllBegun(r, i) <==> NoEarlierReacts(r, i, listener)
    decreases r, |r.calls| - i, 2
  {
    if i < |r.calls| {
      var call := r.calls[i];
      var own := [call.note] + Begun(call, 0);
      AllHeardStep(r, i, listener);
      DistinctParts(own, AllBegun(r, i + 1));
      HeardLength(call, 0, listener, listeners);
      Splits(Heard(call, 0, listener), AllHeard(r, i + 1, listener), own, AllBegun(r, i + 1));
      EarlierOrder(call, 0, listener, listeners);
      OrderOfReactions(r, i + 1, listener, listeners);
    }
  }

  /** In every run of the client, a listener hears the changes of the connection state in the order of the
      calls of onStateChange exactly if no listener before it causes a change while it is told. */
  lemma ListenerHearsOrderIff(events: seq<Event>, r: Reaction, listener: nat, listeners: nat)
    requires AllBegun(r, 0) == Run(INITIAL, events).notes && AllFit(r, 0, listeners) && listener < listeners
    ensures AllHeard(r, 0, listener) == Run(INITIAL, events).notes <==> NoEarlierReacts(r, 0, listener)
  {
    var notes := Run(INITIAL, events).notes;
    forall i, j | 0 <= i < j < |notes| ensures notes[i] != notes[j] {
      NotesAreDistinct(events, i, j);
    }
    OrderOfReactions(r, 0, listener, listeners);
  }

  /** A first listener that reconnects when it is told of the end of connection 1: the second one hears of
      connection 2 first. */
  lemma ReconnectIsHeardFirst()
    ensures var silent := Reaction([]);
            var reconnect := Call(NoteConnecting(2), [silent, silent]);
            var ended := Call(NoteDisconnected(1), [Reaction([reconnect]), silent]);
            && [ended.note] + Begun(ended, 0) == [NoteDisconnected(1), NoteConnecting(2)]
            && Heard(ended, 0, 0) == [NoteDisconnected(1), NoteConnecting(2)]
            && Heard(ended, 0, 1) == [NoteConnecting(2), NoteDisconnected(1)]
  {
    var silent := Reaction([]);
    var reconnect := Call(NoteConnecting(2), [silent, silent]);
    var ended := Call(NoteDisconnected(1), [Reaction([reconnect]), silent]);
    assert AllBegun(silent, 0) == [] && Begun(reconnect, 1) == [] && Begun(reconnect, 0) == [];
    assert AllBegun(Reaction([reconnect]), 0) == [NoteConnecting(2)] && Begun(ended, 1) == [];
    forall listener: nat ensures Heard(reconnect, 0, listener) == Own(reconnect, 0, listener) + Own(reconnect, 1, listener) {
      HeardStep(reconnect, 0, listener);
      HeardStep(reconnect, 1, listener);
    }
    forall listener: nat
      ensures Heard(ended, 0, listener) == Own(ended, 0, listener) + Heard(reconnect, 0, listener) + Own(ended, 1, listener)
    {
      HeardStep(ended, 0, listener);
      HeardStep(ended, 1, listener);
      AllHeardStep(Reaction([reconnect]), 0, listener);
    }
  }
}
