/** No two cells on one link share a keystream. */
module HopKeystream {
  import opened HopFrame
  import HopSequence
  import Bytes

  /** Whatever failed, crashed or restarted, and whichever peers the cells went to,
      no two cells on the wire were enciphered from one keystream input, and no
      keystream input was ever authenticated. */
  lemma NoInputTwice(y: HopSequence.System, events: seq<HopSequence.Event>, contexts: nat -> Context,
                     i: nat, j: nat, other: Context, body: Bytes.String)
    requires HopSequence.Initial(y) || HopSequence.Inv(y)
    requires i < j < |HopSequence.Run(y, events).wire|
    ensures
      var wire := HopSequence.Run(y, events).wire;
      && StreamInput(contexts(i), wire[i].sequence) != StreamInput(contexts(j), wire[j].sequence)
      && StreamInput(contexts(i), wire[i].sequence) != TagInput(other, body)
  {
    HopSequence.RunNeverReuses(y, events);
    var wire := HopSequence.Run(y, events).wire;
    if StreamInput(contexts(i), wire[i].sequence) == StreamInput(contexts(j), wire[j].sequence) {
      StreamInputInjective(contexts(i), wire[i].sequence, contexts(j), wire[j].sequence);
    }
    StreamInputIsNoTagInput(contexts(i), wire[i].sequence, other, body);
  }
}
